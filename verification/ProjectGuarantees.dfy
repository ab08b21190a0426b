/** What holds in every run of the project manager, and what its calls do on their own. */
module ProjectGuarantees {
  import opened Wrappers
  import opened Projects
  import opened ProjectRuns
  import opened ProjectSafety

  lemma {:induction false} AlwaysGood(states: seq<Workspace>, steps: seq<Step>, n: nat)
    requires Run(states, steps) && n < |states|
    ensures Inv(states[n])
    decreases n
  {
    if n > 0 {
      AlwaysGood(states, steps, n - 1);
      assert Steps(states[n - 1], steps[n - 1], states[n]);
      StepKeepsInv(states[n - 1], steps[n - 1], states[n]);
    }
  }

  // Versions.

  lemma StepKeepsLog(w: Workspace, step: Step, v: Workspace)
    requires Steps(w, step, v)
    ensures w.log <= v.log
  {
  }

  lemma {:induction false} LogOnlyGrows(states: seq<Workspace>, steps: seq<Step>, m: nat, n: nat)
    requires Run(states, steps) && m <= n < |states|
    ensures states[m].log <= states[n].log
    decreases n
  {
    if m < n {
      LogOnlyGrows(states, steps, m, n - 1);
      assert Steps(states[n - 1], steps[n - 1], states[n]);
      StepKeepsLog(states[n - 1], steps[n - 1], states[n]);
    }
  }

  lemma StoredIsLogged(states: seq<Workspace>, steps: seq<Step>, m: nat, n: nat, id: string)
    requires Run(states, steps) && m <= n < |states| && id in states[m].rows
    ensures states[m].rows[id] in states[n].log && states[m].rows[id].id == id
  {
    AlwaysGood(states, steps, m);
    assert Latest(states[m].rows[id], states[m].log);
    LogOnlyGrows(states, steps, m, n);
  }

  /** Over a whole run, ID, token and version name at most one row content. */
  lemma VersionNamesContent(states: seq<Workspace>, steps: seq<Step>, m: nat, n: nat, id: string)
    requires Run(states, steps) && m < |states| && n < |states|
    requires id in states[m].rows && id in states[n].rows
    requires states[m].rows[id].token == states[n].rows[id].token
    requires states[m].rows[id].version == states[n].rows[id].version
    ensures states[m].rows[id] == states[n].rows[id]
  {
    var last := if m < n then n else m;
    StoredIsLogged(states, steps, m, last, id);
    StoredIsLogged(states, steps, n, last, id);
    AlwaysGood(states, steps, last);
    assert Ordered(states[m].rows[id], states[n].rows[id]);
  }

  /** No lost update: a conditional update or delete from a snapshot read earlier takes effect
      only if the whole row, with its uncompared name and error, is as it was read. */
  lemma NoLostUpdate(states: seq<Workspace>, steps: seq<Step>, m: nat, n: nat, id: string, after: Project)
    requires Run(states, steps) && m <= n < |states| && id in states[m].rows
    ensures var snapshot := states[m].rows[id];
            && (Updatable(states[n].rows, snapshot, after) ==>
                  id in states[n].rows && states[n].rows[id] == snapshot)
            && (Deletable(states[n].rows, snapshot) ==>
                  id in states[n].rows && states[n].rows[id] == snapshot)
  {
    StoredIsLogged(states, steps, m, n, id);
    AlwaysGood(states, steps, n);
    if Matches(states[n].rows, states[m].rows[id]) {
      MatchIsIdentity(states[n].rows, states[n].log, states[n].tokens, states[m].rows[id]);
    }
  }

  /** A rename with the version a client read earlier is accepted for the row the client saw
      exactly when the generation is still the same one: the version alone does not say so. */
  lemma RenameMeansReadRowIff(states: seq<Workspace>, steps: seq<Step>, m: nat, n: nat, c: nat,
                              id: string, name: string)
    requires Run(states, steps) && m <= n < |states| && id in states[m].rows && c in states[n].calls
    requires states[n].calls[c] == Fetching(id, name, states[m].rows[id].version)
    requires AfterFetching(states[n], c, id, name, states[m].rows[id].version, Works).calls[c].Renaming?
    ensures id in states[n].rows
    ensures AfterFetching(states[n], c, id, name, states[m].rows[id].version, Works).calls[c].p == states[m].rows[id]
            <==> states[n].rows[id].token == states[m].rows[id].token
  {
    if states[n].rows[id].token == states[m].rows[id].token {
      VersionNamesContent(states, steps, m, n, id);
    }
  }

  /** Once a generation was marked for deletion it is never ready again. */
  lemma NeverReadyAgain(states: seq<Workspace>, steps: seq<Step>, m: nat, n: nat, p: Project, id: string)
    requires Run(states, steps) && m <= n < |states|
    requires p in states[m].log && p.state in {Deleting, DeleteFailed}
    requires id in states[n].rows && states[n].rows[id].token == p.token
    ensures states[n].rows[id].state in {Deleting, DeleteFailed}
  {
    LogOnlyGrows(states, steps, m, n);
    AlwaysGood(states, steps, n);
    RetiredStaysRetired(states[n], p, id);
  }

  lemma RetiredStaysRetired(w: Workspace, p: Project, id: string)
    requires Inv(w) && p in w.log && p.state in {Deleting, DeleteFailed}
    requires id in w.rows && w.rows[id].token == p.token
    ensures w.rows[id].state in {Deleting, DeleteFailed}
  {
  }

  // Files.

  /** The step removes the directory of id, or part of it. */
  predicate Harms(w: Workspace, v: Workspace, id: string) {
    && id in w.directories
    && (id !in v.directories || (w.directories[id].complete && !v.directories[id].complete))
  }

  /** Files are only ever harmed by a call that has the stored row to itself, and that row is
      in deleting, or in creating for a rollback, and made those files. */
  lemma RemovalIsOwned(states: seq<Workspace>, steps: seq<Step>, n: nat, id: string)
    requires Run(states, steps) && n < |steps| && Harms(states[n], states[n + 1], id)
    ensures var w := states[n];
            && id in w.rows && w.rows[id].state in {Creating, Deleting}
            && w.directories[id].owner == Some(w.rows[id].token)
            && steps[n].Advance? && steps[n].c in w.calls
            && Held(w.calls[steps[n].c]) == Some(w.rows[id])
  {
    AlwaysGood(states, steps, n);
    assert Steps(states[n], steps[n], states[n + 1]);
    HarmIsOwned(states[n], steps[n], id);
  }

  lemma HarmIsOwned(w: Workspace, step: Step, id: string)
    requires Inv(w) && Allowed(w, step) && Harms(w, After(w, step), id)
    ensures id in w.rows && w.rows[id].state in {Creating, Deleting}
    ensures w.directories[id].owner == Some(w.rows[id].token)
    ensures step.Advance? && step.c in w.calls && Held(w.calls[step.c]) == Some(w.rows[id])
  {
    assert CallGood(w, w.calls[step.c]);
    assert DirectoryGood(w.rows, w.directories, id);
  }

  /** Directories that were there before are never touched, in any run. */
  lemma {:induction false} ForeignFilesStay(states: seq<Workspace>, steps: seq<Step>, n: nat, id: string)
    requires Run(states, steps) && n < |states| && id in states[0].directories
    ensures id in states[n].directories && states[n].directories[id] == states[0].directories[id]
    decreases n
  {
    if n > 0 {
      ForeignFilesStay(states, steps, n - 1, id);
      AlwaysGood(states, steps, n - 1);
      assert Steps(states[n - 1], steps[n - 1], states[n]);
      StepKeepsForeign(states[n - 1], steps[n - 1], id);
    }
  }

  lemma StepKeepsForeign(w: Workspace, step: Step, id: string)
    requires Inv(w) && Allowed(w, step) && id in w.directories && w.directories[id].owner.None?
    ensures id in After(w, step).directories && After(w, step).directories[id] == w.directories[id]
  {
    if step.Advance? {
      assert CallGood(w, w.calls[step.c]);
      assert DirectoryGood(w.rows, w.directories, id);
    }
  }

  /** A project that is ready has the whole directory its own generation made. */
  lemma ReadyHasFiles(states: seq<Workspace>, steps: seq<Step>, n: nat, id: string)
    requires Run(states, steps) && n < |states| && id in states[n].rows && states[n].rows[id].state == Ready
    ensures id in states[n].directories
    ensures states[n].directories[id] == Directory(Some(states[n].rows[id].token), true)
  {
    AlwaysGood(states, steps, n);
    assert DirectoryGood(states[n].rows, states[n].directories, id);
  }

  /** The comparison in rollback never finds a different row. */
  lemma RollbackFindsItsRow(states: seq<Workspace>, steps: seq<Step>, n: nat, c: nat)
    requires Run(states, steps) && n < |states| && c in states[n].calls && states[n].calls[c].RollingBack?
    ensures var p := states[n].calls[c].p; p.id in states[n].rows && states[n].rows[p.id] == p
  {
    AlwaysGood(states, steps, n);
    assert CallGood(states[n], states[n].calls[c]);
  }

  /** Calls report success only for what is true: a created project is ready with its files,
      and a deleted one has neither row nor files. */
  lemma SuccessIsTrue(states: seq<Workspace>, steps: seq<Step>, n: nat, c: nat, luck: Luck)
    requires Run(states, steps) && n < |steps| && steps[n] == Advance(c, luck) && c in states[n].calls
    requires c in states[n + 1].calls && states[n + 1].calls[c] == Finished(true)
    ensures var w, v := states[n], states[n + 1];
            && (w.calls[c].Completing? ==>
                  var p := w.calls[c].p;
                  && p.id in v.rows && v.rows[p.id] == p.(state := Ready, version := p.version + 1)
                  && p.id in v.directories && v.directories[p.id] == Directory(Some(p.token), true))
            && (w.calls[c].Erasing? ==> w.calls[c].d.id !in v.rows && w.calls[c].d.id !in v.directories)
            && (w.calls[c].Renaming? ==>
                  var p, next := w.calls[c].p, w.calls[c].next;
                  && p.id in w.rows && w.rows[p.id] == p
                  && p.id in v.rows && v.rows[p.id] == p.(name := next.name, version := p.version + 1))
            && (w.calls[c].Completing? || w.calls[c].Erasing? || w.calls[c].Renaming?)
  {
    AlwaysGood(states, steps, n);
    var w := states[n];
    assert Steps(w, steps[n], states[n + 1]);
    assert CallGood(w, w.calls[c]);
    if w.calls[c].Completing? {
      assert states[n + 1] == AfterCompleting(w, c, w.calls[c].p, luck.fault);
    } else if w.calls[c].Erasing? {
      assert states[n + 1] == AfterErasing(w, c, w.calls[c].d, luck.fault);
    } else if w.calls[c].Renaming? {
      assert states[n + 1] == AfterRenaming(w, c, w.calls[c].p, w.calls[c].next, luck.fault);
      if Matches(w.rows, w.calls[c].p) {
        MatchIsIdentity(w.rows, w.log, w.tokens, w.calls[c].p);
      }
    }
  }

  // Success.

  /** What the next statement of a call achieves when nothing is wrong with the store. */
  ghost predicate StatementAchieves(w: Workspace, v: Workspace, before: Call, after: Call) {
    match before
    case Inserting(p) =>
      if p.id !in w.rows then after == MakingDirectory(p) && v.rows == w.rows[p.id := p]
      else after == Finished(false) && v.rows == w.rows
    case Completing(p) =>
      after == Finished(true) && v.rows == w.rows[p.id := p.(state := Ready, version := 2)]
    case RollingBack(p, made) => after == CleaningUp(p, made) && v.rows == w.rows
    case Releasing(p) => after == Finished(false) && v.rows == w.rows - {p.id}
    case Claiming(expected) =>
      if && expected.id in w.rows && w.rows[expected.id] == expected
         && expected.state in {Ready, Failed, DeleteFailed} then
        var claimed := expected.(state := Deleting, error := "", version := expected.version + 1);
        after == Removing(claimed) && v.rows == w.rows[expected.id := claimed]
      else after == Finished(false) && v.rows == w.rows
    case Erasing(d) => after == Finished(true) && v.rows == w.rows - {d.id}
    case Reporting(d) =>
      && after == Finished(false)
      && v.rows == if d.id in w.rows && w.rows[d.id].token == d.token then
                     w.rows[d.id := d.(state := DeleteFailed, version := d.version + 1,
                                       error := "Deletion could not finish. Check the server logs and retry.")]
                   else w.rows
    case Fetching(id, name, version) =>
      && v.rows == w.rows
      && after == if id in w.rows && w.rows[id].version == version && w.rows[id].state !in {Creating, Deleting} then
                    Renaming(w.rows[id], w.rows[id].(name := name))
                  else Finished(false)
    case Renaming(p, next) =>
      if p.id in w.rows && w.rows[p.id] == p then
        after == Finished(true) && v.rows == w.rows[p.id := p.(name := next.name, version := p.version + 1)]
      else after == Finished(false) && v.rows == w.rows
    case _ => true
  }

  /** In every run a statement that works does what its call is for: an insert takes a free ID,
      a completion and an erasure always succeed, a claim and a rename exactly from the stored
      row, and a failed deletion is recorded so that it can be claimed again. */
  lemma WorkingStatementsSucceed(states: seq<Workspace>, steps: seq<Step>, n: nat, c: nat)
    requires Run(states, steps) && n < |steps| && steps[n] == Advance(c, Statement(Works))
    ensures c in states[n].calls && c in states[n + 1].calls
    ensures StatementAchieves(states[n], states[n + 1], states[n].calls[c], states[n + 1].calls[c])
  {
    AlwaysGood(states, steps, n);
    assert Steps(states[n], steps[n], states[n + 1]);
    StatementSucceeds(states[n], c);
  }

  lemma StatementSucceeds(w: Workspace, c: nat)
    requires Inv(w) && c in w.calls && Fits(w.calls[c], Statement(Works))
    ensures var v := AfterAdvance(w, c, Statement(Works));
            c in v.calls && StatementAchieves(w, v, w.calls[c], v.calls[c])
  {
    assert CallGood(w, w.calls[c]);
    match w.calls[c]
    case Claiming(expected) => ClaimSucceeds(w, c, expected);
    case Renaming(p, next) => RenameSucceeds(w, c, p, next);
    case Reporting(d) => ReportSucceeds(w, c, d);
    case Completing(p) => CompletionSucceeds(w, c, p);
    case Releasing(p) => HeldRowIsSound(w, p);
    case Erasing(d) => HeldRowIsSound(w, d);
    case Inserting(_) =>
    case RollingBack(_, _) =>
    case Fetching(_, _, _) =>
  }

  lemma CompletionSucceeds(w: Workspace, c: nat, p: Project)
    requires LogGood(w.log, w.tokens) && RowsGood(w.rows, w.log)
    requires c in w.calls && w.calls[c] == Completing(p) && CallGood(w, w.calls[c])
    ensures var v := AfterCompleting(w, c, p, Works);
            c in v.calls && StatementAchieves(w, v, w.calls[c], v.calls[c])
  {
    HeldRowIsSound(w, p);
  }

  lemma HeldRowIsSound(w: Workspace, p: Project)
    requires LogGood(w.log, w.tokens) && RowsGood(w.rows, w.log) && p.id in w.rows && w.rows[p.id] == p
    ensures Sound(p, w.tokens)
  {
    assert Latest(p, w.log);
  }

  lemma ClaimSucceeds(w: Workspace, c: nat, expected: Project)
    requires LogGood(w.log, w.tokens) && RowsGood(w.rows, w.log)
    requires c in w.calls && w.calls[c] == Claiming(expected) && expected in w.log
    ensures var v := AfterClaiming(w, c, expected, Works);
            StatementAchieves(w, v, w.calls[c], v.calls[c])
  {
    if Matches(w.rows, expected) {
      MatchIsIdentity(w.rows, w.log, w.tokens, expected);
    }
  }

  lemma RenameSucceeds(w: Workspace, c: nat, p: Project, next: Project)
    requires LogGood(w.log, w.tokens) && RowsGood(w.rows, w.log)
    requires c in w.calls && w.calls[c] == Renaming(p, next) && CallGood(w, w.calls[c])
    ensures var v := AfterRenaming(w, c, p, next, Works);
            StatementAchieves(w, v, w.calls[c], v.calls[c])
  {
    if Matches(w.rows, p) {
      MatchIsIdentity(w.rows, w.log, w.tokens, p);
    }
  }

  lemma ReportSucceeds(w: Workspace, c: nat, d: Project)
    requires RowsGood(w.rows, w.log)
    requires c in w.calls && w.calls[c] == Reporting(d) && CallGood(w, w.calls[c])
    ensures var v := AfterReporting(w, c, d, Works);
            StatementAchieves(w, v, w.calls[c], v.calls[c])
  {
  }

  /** What the next file operation of a call achieves when it does not fail. */
  ghost predicate FilesAchieve(w: Workspace, v: Workspace, before: Call, after: Call) {
    match before
    case MakingDirectory(p) =>
      if p.id !in w.directories then
        after == Initializing(p) && v.directories == w.directories[p.id := Directory(Some(p.token), false)]
      else after == RollingBack(p, false) && v.directories == w.directories
    case Initializing(p) =>
      after == Completing(p) && v.directories == w.directories[p.id := Directory(Some(p.token), true)]
    case CleaningUp(p, made) =>
      after == Releasing(p) && v.directories == if made then w.directories - {p.id} else w.directories
    case Removing(d) => after == Erasing(d) && v.directories == w.directories - {d.id}
    case _ => true
  }

  /** In every run a file operation that works makes exactly its directory, or removes it. */
  lemma WorkingFilesSucceed(states: seq<Workspace>, steps: seq<Step>, n: nat, c: nat)
    requires Run(states, steps) && n < |steps| && steps[n] == Advance(c, Files(false, false))
    ensures c in states[n].calls && c in states[n + 1].calls
    ensures FilesAchieve(states[n], states[n + 1], states[n].calls[c], states[n + 1].calls[c])
  {
    AlwaysGood(states, steps, n);
    assert Steps(states[n], steps[n], states[n + 1]);
    assert CallGood(states[n], states[n].calls[c]);
  }
}
