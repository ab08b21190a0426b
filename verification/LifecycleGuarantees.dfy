/** What holds in every run of the server over projects and executions. */
module LifecycleGuarantees {
  import opened Wrappers
  import opened ProjectIds
  import P = Projects
  import PR = ProjectRuns
  import PG = ProjectGuarantees
  import E = Execution
  import ER = ExecutionRuns
  import ES = ExecutionSafety
  import opened Lifecycle
  import opened LifecycleSafety

  lemma {:induction false} AlwaysGood(states: seq<Server>, steps: seq<Step>, n: nat)
    requires Run(states, steps) && n < |states|
    ensures Inv(states[n]) && E.Linked(states[n].machine.manager, states[n].machine.processes)
    decreases n
  {
    if n > 0 {
      AlwaysGood(states, steps, n - 1);
      assert Steps(states[n - 1], steps[n - 1], states[n]);
      StepKeepsInv(states[n - 1], steps[n - 1], states[n]);
    } else {
      InitiallyGood(states[0]);
    }
    InvIsLinked(states[n]);
  }

  lemma InitiallyGood(s: Server)
    requires Initial(s)
    ensures Inv(s)
  {
  }

  /** A launcher is live, or a process is live or of unconfirmed exit, only while its project is
      ready, with the whole directory of that very generation in place. */
  lemma OccupiedOnlyWhenReady(states: seq<Server>, steps: seq<Step>, n: nat, key: string)
    requires Run(states, steps) && n < |states| && !ES.Settled(states[n].machine, key)
    ensures exists id ::
              && id in states[n].workspace.rows && states[n].workspace.rows[id].state == P.Ready
              && Key(states[n].workspace.rows[id]) == key
              && id in states[n].workspace.directories
              && states[n].workspace.directories[id] == PR.Directory(Some(states[n].workspace.rows[id].token), true)
  {
    AlwaysGood(states, steps, n);
    var w := states[n].workspace;
    assert Backed(w.rows, key);
    var id :| id in w.rows && w.rows[id].state == P.Ready && Key(w.rows[id]) == key;
    assert PR.DirectoryGood(w.rows, w.directories, id);
  }

  /** No generation but the ready one can have anything live or unconfirmed. */
  lemma OthersAreSettled(s: Server, p: P.Project)
    requires Inv(s) && ValidId(p.id) && !ReadyRow(s.workspace.rows, p)
    ensures ES.Settled(s.machine, Key(p))
  {
    if !ES.Settled(s.machine, Key(p)) {
      assert Backed(s.workspace.rows, Key(p));
      var id :| id in s.workspace.rows && s.workspace.rows[id].state == P.Ready && Key(s.workspace.rows[id]) == Key(p);
      RowIsSound(s.workspace, id);
      KeysAreInjective(s.workspace.rows[id], p);
    }
  }

  /** At most one process is live or of unconfirmed exit in a project's directory, whatever
      generations the ID has had. */
  lemma OneProcessPerProject(states: seq<Server>, steps: seq<Step>, n: nat, a: P.Project, b: P.Project, p: nat, q: nat)
    requires Run(states, steps) && n < |states| && ValidId(a.id) && a.id == b.id
    requires ES.Occupies(states[n].machine, p, Key(a)) && ES.Occupies(states[n].machine, q, Key(b))
    ensures p == q
  {
    AlwaysGood(states, steps, n);
    var s := states[n];
    assert !ES.Settled(s.machine, Key(a)) && !ES.Settled(s.machine, Key(b));
    if !ReadyRow(s.workspace.rows, a) {
      OthersAreSettled(s, a);
    } else if !ReadyRow(s.workspace.rows, b) {
      OthersAreSettled(s, b);
    } else {
      ES.OccupantIsCurrent(s.machine, p, Key(a));
      ES.OccupantIsCurrent(s.machine, q, Key(a));
    }
  }

  // Deletion excludes execution.

  /** Only the generation in these places can still become ready. */
  predicate Builds(call: PR.Call, token: string) {
    (call.Inserting? || call.MakingDirectory? || call.Initializing? || call.Completing?) && call.p.token == token
  }

  /** A generation that is not ready and that nobody is building. */
  ghost predicate Doomed(w: PR.Workspace, token: string) {
    && token in w.tokens
    && (forall id <- w.rows :: w.rows[id].token == token ==> w.rows[id].state != P.Ready)
    && (forall c <- w.calls :: !Builds(w.calls[c], token))
  }

  lemma HarmDooms(w: PR.Workspace, change: PR.Step, v: PR.Workspace, id: string)
    requires PR.Inv(w) && PR.Steps(w, change, v) && PG.Harms(w, v, id)
    ensures w.directories[id].owner.Some? && Doomed(v, w.directories[id].owner.value)
  {
    PG.HarmIsOwned(w, change, id);
    var row, c := w.rows[id], change.c;
    RowIsSound(w, id);
    assert PR.Sound(row, w.tokens);
    HarmChangesOnlyFiles(w, change, v, id);
    forall b <- w.calls | b != c
      ensures !Builds(w.calls[b], row.token)
    {
      OwnerBuildsAlone(w, c, b, id);
    }
    forall other <- w.rows | w.rows[other].token == row.token
      ensures w.rows[other].state != P.Ready
    {
      RowIsSound(w, other);
      assert PR.Ordered(w.rows[other], row);
    }
  }

  lemma HarmChangesOnlyFiles(w: PR.Workspace, change: PR.Step, v: PR.Workspace, id: string)
    requires PR.Steps(w, change, v) && PG.Harms(w, v, id)
    ensures change.Advance? && v.rows == w.rows && v.tokens == w.tokens
    ensures change.c in v.calls && v.calls == w.calls[change.c := v.calls[change.c]]
    ensures v.calls[change.c].Releasing? || v.calls[change.c].Erasing? || v.calls[change.c].Reporting?
            || v.calls[change.c].Finished?
  {
  }

  lemma OwnerBuildsAlone(w: PR.Workspace, c: nat, b: nat, id: string)
    requires PR.Inv(w) && id in w.rows && c in w.calls && PR.Held(w.calls[c]) == Some(w.rows[id])
    requires b in w.calls && b != c
    ensures !Builds(w.calls[b], w.rows[id].token)
  {
  }

  /** A row becomes ready only when its creation completes. */
  lemma ReadyComesFromCompleting(w: PR.Workspace, change: PR.Step, v: PR.Workspace, id: string)
    requires PR.Inv(w) && PR.Steps(w, change, v) && id in v.rows && v.rows[id].state == P.Ready
    ensures (id in w.rows && w.rows[id].state == P.Ready && w.rows[id].token == v.rows[id].token)
            || (change.Advance? && w.calls[change.c].Completing? && w.calls[change.c].p.token == v.rows[id].token)
  {
    if change.Advance? {
      AdvanceStores(w, change.c, change.luck);
      ReadyIsStoredByCompleting(w, w.calls[change.c], change.luck, id);
    }
  }

  lemma ReadyIsStoredByCompleting(w: PR.Workspace, call: PR.Call, luck: PR.Luck, id: string)
    requires PR.RowsGood(w.rows, w.log) && PR.CallGood(w, call) && PR.Fits(call, luck)
    requires id in Stores(w.rows, call, luck) && Stores(w.rows, call, luck)[id].state == P.Ready
    ensures var token := Stores(w.rows, call, luck)[id].token;
            || (id in w.rows && w.rows[id].state == P.Ready && w.rows[id].token == token)
            || (call.Completing? && call.p.token == token)
  {
  }

  /** A generation is built by the call that drew its token, from beginning to end. */
  lemma BuildersWereBuilding(w: PR.Workspace, change: PR.Step, v: PR.Workspace, c: nat, token: string)
    requires PR.Steps(w, change, v) && c in v.calls && Builds(v.calls[c], token)
    ensures (c in w.calls && Builds(w.calls[c], token)) || token !in w.tokens
  {
    if change.c != c {
      OthersStand(w, change, v, c);
    } else if change.Advance? {
      BuilderAdvances(w, c, change.luck, token);
    }
  }

  lemma BuilderAdvances(w: PR.Workspace, c: nat, luck: PR.Luck, token: string)
    requires c in w.calls && PR.Fits(w.calls[c], luck)
    requires c in PR.AfterAdvance(w, c, luck).calls && Builds(PR.AfterAdvance(w, c, luck).calls[c], token)
    ensures Builds(w.calls[c], token)
  {
  }

  lemma DoomedStays(w: PR.Workspace, change: PR.Step, v: PR.Workspace, token: string)
    requires PR.Inv(w) && PR.Steps(w, change, v) && Doomed(w, token)
    ensures Doomed(v, token)
  {
    forall id <- v.rows | v.rows[id].token == token
      ensures v.rows[id].state != P.Ready
    {
      if v.rows[id].state == P.Ready {
        ReadyComesFromCompleting(w, change, v, id);
      }
    }
    forall c <- v.calls
      ensures !Builds(v.calls[c], token)
    {
      if Builds(v.calls[c], token) {
        BuildersWereBuilding(w, change, v, c, token);
      }
    }
    TokensGrow(w, change, v);
  }

  lemma TokensGrow(w: PR.Workspace, change: PR.Step, v: PR.Workspace)
    requires PR.Steps(w, change, v)
    ensures w.tokens <= v.tokens
  {
  }

  lemma {:induction false} DoomedForGood(states: seq<Server>, steps: seq<Step>, m: nat, n: nat, token: string)
    requires Run(states, steps) && m <= n < |states| && Doomed(states[m].workspace, token)
    ensures Doomed(states[n].workspace, token)
    decreases n
  {
    if m < n {
      DoomedForGood(states, steps, m, n - 1, token);
      DoomedNext(states, steps, n - 1, token);
    }
  }

  lemma DoomedNext(states: seq<Server>, steps: seq<Step>, n: nat, token: string)
    requires Run(states, steps) && n < |steps| && Doomed(states[n].workspace, token)
    ensures Doomed(states[n + 1].workspace, token)
  {
    AlwaysGood(states, steps, n);
    var s := states[n];
    assert Steps(s, steps[n], states[n + 1]);
    WorkspaceSteps(s, steps[n]);
    if Change(s, steps[n]).Some? {
      DoomedStays(s.workspace, Change(s, steps[n]).value, states[n + 1].workspace, token);
    }
  }

  lemma RemovalDooms(states: seq<Server>, steps: seq<Step>, n: nat, id: string, p: P.Project)
    requires Run(states, steps) && n < |steps| && PG.Harms(states[n].workspace, states[n + 1].workspace, id)
    requires p.id == id && states[n].workspace.directories[id].owner == Some(p.token)
    ensures ValidId(id) && Doomed(states[n + 1].workspace, p.token)
    ensures ES.Settled(states[n].machine, Key(p))
  {
    AlwaysGood(states, steps, n);
    var s := states[n];
    assert Steps(s, steps[n], states[n + 1]);
    WorkspaceSteps(s, steps[n]);
    var change := Change(s, steps[n]).value;
    PG.HarmIsOwned(s.workspace, change, id);
    RowIsSound(s.workspace, id);
    HarmDooms(s.workspace, change, states[n + 1].workspace, id);
    OthersAreSettled(s, p);
  }

  lemma DoomedIsSettled(states: seq<Server>, steps: seq<Step>, n: nat, p: P.Project)
    requires Run(states, steps) && n < |states| && ValidId(p.id) && Doomed(states[n].workspace, p.token)
    ensures ES.Settled(states[n].machine, Key(p))
  {
    AlwaysGood(states, steps, n);
    OthersAreSettled(states[n], p);
  }

  /** Whenever files of a generation are removed, nothing runs under its key and every exit
      under it is confirmed. */
  lemma DeletionExcludesExecution(states: seq<Server>, steps: seq<Step>, n: nat, id: string, p: P.Project)
    requires Run(states, steps) && n < |steps| && PG.Harms(states[n].workspace, states[n + 1].workspace, id)
    requires p.id == id && states[n].workspace.directories[id].owner == Some(p.token)
    ensures ES.Settled(states[n].machine, Key(p)) && ES.Settled(states[n + 1].machine, Key(p))
  {
    RemovalDooms(states, steps, n, id, p);
    DoomedIsSettled(states, steps, n + 1, p);
  }

  /** Once files of a generation were removed, nothing ever runs under its key again and no
      unconfirmed exit turns up, even when the ID is used again. */
  lemma NothingStartsAfterRemoval(states: seq<Server>, steps: seq<Step>, m: nat, n: nat, id: string, p: P.Project)
    requires Run(states, steps) && m < n < |states| && PG.Harms(states[m].workspace, states[m + 1].workspace, id)
    requires p.id == id && states[m].workspace.directories[id].owner == Some(p.token)
    ensures ES.Settled(states[n].machine, Key(p))
  {
    RemovalDooms(states, steps, m, id, p);
    DoomedForGood(states, steps, m + 1, n, p.token);
    DoomedIsSettled(states, steps, n, p);
  }

  // What a conversation reports.

  /** conversationStatus: whether the client is told that it may start. */
  ghost predicate TellsMayStart(s: Server, id: string)
    requires E.Linked(s.machine.manager, s.machine.processes)
  {
    && id in s.workspace.rows
    && s.workspace.rows[id].state == P.Ready
    && E.StatusOf(s.machine.manager, s.machine.processes, Key(s.workspace.rows[id])).startAllowed
  }

  /** startConversation in one go, with nothing failing. */
  ghost predicate WouldStart(s: Server, h: nat, id: string, next: nat)
    requires h in s.handlers && s.handlers[h] == StartLooking(id)
    requires E.Linked(s.machine.manager, s.machine.processes)
  {
    var t := AfterLookToStart(s, h, P.Works);
    && h in t.handlers && t.handlers[h].Starting?
    && !E.StartAnswer(t.machine.manager, t.machine.processes, Key(t.handlers[h].p), false, next).Refused?
  }

  /** The status tells a client that it may start exactly when a start would be accepted. */
  lemma StatusIsHonest(states: seq<Server>, steps: seq<Step>, n: nat, h: nat, id: string, next: nat)
    requires Run(states, steps) && n < |states|
    requires h in states[n].handlers && states[n].handlers[h] == StartLooking(id)
    ensures E.Linked(states[n].machine.manager, states[n].machine.processes)
    ensures TellsMayStart(states[n], id) <==> WouldStart(states[n], h, id, next)
  {
    AlwaysGood(states, steps, n);
    if id in states[n].workspace.rows {
      ES.StatusAgrees(states[n].machine, Key(states[n].workspace.rows[id]), next);
    }
  }

  // What handlers do.

  /** The lock of an ID is held exactly while a handler is between acquiring it and leaving, and
      then by that handler. */
  lemma LocksAreHeldInside(states: seq<Server>, steps: seq<Step>, n: nat, id: string, h: nat)
    requires Run(states, steps) && n < |states|
    ensures id in states[n].locks && states[n].locks[id] == h
            <==> h in states[n].handlers && Locked(states[n].handlers[h]) == Some(id)
  {
    AlwaysGood(states, steps, n);
  }

  /** What a Start does to the execution manager, in terms of what is going on under the key. */
  ghost predicate Answers(m: ER.Machine, key: string, refused: bool, next: nat, after: ER.Machine)
    requires ER.StatesGood(m.manager)
  {
    if refused || m.manager.closed || ES.BeingStopped(m, key) || ES.HasUnconfirmed(m, key) then after == m
    else
      && (ES.HasLauncher(after, key) || ES.HasProcess(after, key))
      && (ES.Settled(m, key) ==> ES.LaunchesFor(after, next, key))
      && (!ES.Settled(m, key) ==> after == m)
  }

  /** A start that gets to the execution manager is answered in full: unless its context has
      ended, the manager is closed, a stop is under way or an exit is unconfirmed, the
      conversation is launching or running afterwards, launched by this start if and only if
      nothing was going on. The handler is then over and its lock is free. */
  lemma StartIsAnswered(states: seq<Server>, steps: seq<Step>, n: nat, h: nat,
                        unavailable: bool, canceled: bool, next: nat)
    requires Run(states, steps) && n < |steps| && steps[n] == StartConversation(h, unavailable, canceled, next)
    ensures h in states[n].handlers && states[n].handlers[h].Starting? && ER.StatesGood(states[n].machine.manager)
    ensures var s, t := states[n], states[n + 1];
            && Answers(s.machine, Key(s.handlers[h].p), unavailable || canceled, next, t.machine)
            && t.handlers == s.handlers[h := Over] && t.locks == s.locks - {s.handlers[h].id}
            && t.workspace == s.workspace
  {
    AlwaysGood(states, steps, n);
    assert Steps(states[n], steps[n], states[n + 1]);
    if !unavailable {
      StartAnswers(states[n].machine, Key(states[n].handlers[h].p), canceled, next);
    }
  }

  lemma StartAnswers(m: ER.Machine, key: string, canceled: bool, next: nat)
    requires ER.Inv(m) && E.Linked(m.manager, m.processes)
    ensures Answers(m, key, canceled, next, ER.AfterStart(m, key, canceled, next))
  {
    ES.CurrentTellsAll(m, key);
    ES.UnsettledIsOneOf(m, key);
    if ES.Settled(m, key) {
      var after := ER.AfterStart(m, key, canceled, next);
      assert !canceled && !m.manager.closed && !ES.BeingStopped(m, key) ==> ES.LaunchesFor(after, next, key);
    }
  }
}
