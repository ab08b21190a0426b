/** A project that nothing else is working on can be deleted, whatever is running in it, if and
    only if no exit was lost (internal/server/projects.go, internal/server/execution_manager.go,
    internal/project/local/manager.go). */
module LifecycleProgress {
  import opened Wrappers
  import opened ProjectIds
  import P = Projects
  import PR = ProjectRuns
  import PG = ProjectGuarantees
  import E = Execution
  import ER = ExecutionRuns
  import EP = ExecutionProgress
  import opened Lifecycle
  import opened LifecycleSafety
  import LifecycleGuarantees

  ghost predicate Good(s: Server) {
    Inv(s) && E.Linked(s.machine.manager, s.machine.processes) && EP.Led(s.machine.manager.entries, s.machine.stops)
  }

  lemma StepKeepsGood(s: Server, step: Step, t: Server)
    requires Good(s) && Steps(s, step, t)
    ensures Good(t)
  {
    StepKeepsInv(s, step, t);
    InvIsLinked(t);
    MachineSteps(s, step);
    if Motion(s, step).Some? {
      EP.StepKeepsLed(s.machine, Motion(s, step).value, t.machine);
    }
  }

  lemma {:induction false} AlwaysGood(states: seq<Server>, steps: seq<Step>, n: nat)
    requires Run(states, steps) && n < |states|
    ensures Good(states[n])
    decreases n
  {
    LifecycleGuarantees.AlwaysGood(states, steps, n);
    if n > 0 {
      AlwaysGood(states, steps, n - 1);
      assert Steps(states[n - 1], steps[n - 1], states[n]);
      StepKeepsGood(states[n - 1], steps[n - 1], states[n]);
    }
  }

  /** The handler and its call go on, and launchers return and processes end. */
  predicate Helps(step: Step, h: nat) {
    match step
    case Project(change) => change.Advance? && change.c == h
    case Execution(move) => EP.Helps(move)
    case _ => step.h == h
  }

  ghost predicate HelpsTo(s: Server, h: nat, step: Step, t: Server) {
    Helps(step, h) && Steps(s, step, t)
  }

  /** Such steps, and the states they lead through. */
  datatype Trace = Trace(h: nat, begin: Server, steps: seq<Step>, passed: seq<Server>, at: Server) {
    ghost predicate Valid() {
      && |passed| == |steps| + 1
      && passed[0] == begin && passed[|steps|] == at
      && forall i, j {:trigger HelpsTo(passed[i], h, steps[i], passed[j])} ::
        0 <= i < |steps| && j == i + 1 ==> HelpsTo(passed[i], h, steps[i], passed[j])
    }
  }

  /** The trace begins in a good state. */
  ghost predicate Sound(t: Trace) {
    t.Valid() && Good(t.begin)
  }

  /** The trace u goes on where t stands. */
  ghost predicate GoesOn(t: Trace, u: Trace) {
    u.Valid() && u.begin == t.begin && u.h == t.h
  }

  lemma StepOf(t: Trace, k: nat)
    requires t.Valid() && k < |t.steps|
    ensures Steps(t.passed[k], t.steps[k], t.passed[k + 1])
  {
    assert HelpsTo(t.passed[k], t.h, t.steps[k], t.passed[k + 1]);
  }

  lemma {:induction false} StaysGood(t: Trace, k: nat)
    requires Sound(t) && k <= |t.steps|
    ensures Good(t.passed[k])
    decreases k
  {
    if k > 0 {
      StaysGood(t, k - 1);
      StepOf(t, k - 1);
      StepKeepsGood(t.passed[k - 1], t.steps[k - 1], t.passed[k]);
    }
  }

  lemma IsLinked(t: Trace)
    requires Sound(t)
    ensures E.Linked(t.at.machine.manager, t.at.machine.processes)
  {
    StaysGood(t, |t.steps|);
  }

  lemma Extend(t: Trace, step: Step, s: Server) returns (u: Trace)
    requires t.Valid() && HelpsTo(t.at, t.h, step, s)
    ensures GoesOn(t, u) && u.at == s
  {
    u := Trace(t.h, t.begin, t.steps + [step], t.passed + [s], s);
    forall i, j | 0 <= i < |u.steps| && j == i + 1
      ensures HelpsTo(u.passed[i], u.h, u.steps[i], u.passed[j])
    {
      if i < |t.steps| {
        assert HelpsTo(t.passed[i], t.h, t.steps[i], t.passed[j]);
      }
    }
  }

  lemma Take(t: Trace, step: Step) returns (u: Trace)
    requires Sound(t) && Allowed(t.at, step) && Helps(step, t.h)
    ensures GoesOn(t, u) && HelpsTo(t.at, t.h, step, u.at)
  {
    IsLinked(t);
    u := Extend(t, step, After(t.at, step));
  }

  // A deletion.

  /** Nothing holds the project back: no handler has it, and no operation is working on it. */
  ghost predicate Free(s: Server, id: string) {
    && id in s.workspace.rows && id !in s.locks
    && s.workspace.rows[id].state !in {P.Creating, P.Deleting}
  }

  lemma Enters(t: Trace, id: string) returns (u: Trace)
    requires Sound(t) && id !in t.at.locks
    requires t.h !in t.at.handlers && t.h !in t.at.workspace.calls
    ensures GoesOn(t, u)
    ensures u.at == t.at.(handlers := t.at.handlers[t.h := DeleteLooking(id)], locks := t.at.locks[id := t.h])
  {
    var arrived := Take(t, Arrive(t.h, DeleteWaiting(id)));
    u := Take(arrived, Acquire(t.h));
    assert t.at.handlers[t.h := DeleteWaiting(id)][t.h := DeleteLooking(id)] == t.at.handlers[t.h := DeleteLooking(id)];
  }

  lemma Asks(t: Trace, id: string, call: nat) returns (u: Trace)
    requires Sound(t) && Free(t.at, id)
    requires t.h !in t.at.handlers && t.h !in t.at.workspace.calls && call !in t.at.machine.stops
    ensures GoesOn(t, u) && u.at.workspace == t.at.workspace
    ensures var p, machine := t.at.workspace.rows[id], t.at.machine;
            && u.at.handlers == t.at.handlers[t.h := Stopping(id, p, call)]
            && u.at.locks == t.at.locks[id := t.h]
            && u.at.machine == machine.(stops := machine.stops[call := ER.StopCall(Key(p), ER.Entering)])
  {
    var entered := Enters(t, id);
    u := Take(entered, LookToDelete(t.h, P.Works, call));
    var p := t.at.workspace.rows[id];
    assert t.at.handlers[t.h := DeleteLooking(id)][t.h := Stopping(id, p, call)]
        == t.at.handlers[t.h := Stopping(id, p, call)];
  }

  /** The steps of the execution manager are steps of the server. */
  lemma {:induction false} RunsAlong(t: Trace, e: EP.Trace, k: nat) returns (u: Trace)
    requires Sound(t) && e.Valid() && e.begin == t.at.machine && k <= |e.steps|
    ensures GoesOn(t, u) && u.at == t.at.(machine := e.passed[k])
    decreases k
  {
    u := t;
    if k > 0 {
      var v := RunsAlong(t, e, k - 1);
      assert EP.HelpsTo(e.passed[k - 1], e.steps[k - 1], e.passed[k]);
      u := Take(v, Execution(e.steps[k - 1]));
    }
  }

  lemma Stops(t: Trace, call: nat) returns (u: Trace)
    requires Sound(t) && call in t.at.machine.stops
    ensures GoesOn(t, u) && u.at == t.at.(machine := u.at.machine) && ER.Returns(u.at.machine.stops, call)
    ensures ER.Fails(u.at.machine.stops, call) ==> EP.Doubtful(t.at.machine, t.at.machine.stops[call].key)
  {
    StaysGood(t, |t.steps|);
    var e := EP.ReturnsFrom(t.at.machine, call);
    u := RunsAlong(t, e, |e.steps|);
  }

  /** The handler's call takes a step that does not fail. */
  lemma Works(t: Trace, luck: PR.Luck) returns (u: Trace)
    requires Sound(t) && t.h in t.at.workspace.calls && PR.Fits(t.at.workspace.calls[t.h], luck)
    ensures GoesOn(t, u) && u.at == t.at.(workspace := PR.AfterAdvance(t.at.workspace, t.h, luck))
  {
    u := Take(t, Project(PR.Advance(t.h, luck)));
  }

  lemma Claims(t: Trace, p: P.Project) returns (u: Trace, d: P.Project)
    requires Sound(t) && t.h in t.at.workspace.calls && t.at.workspace.calls[t.h] == PR.Claiming(p)
    requires p.id in t.at.workspace.rows && t.at.workspace.rows[p.id] == p && p.state !in {P.Creating, P.Deleting}
    ensures GoesOn(t, u) && u.at == t.at.(workspace := u.at.workspace) && d.id == p.id
    ensures t.h in u.at.workspace.calls && u.at.workspace.calls[t.h] == PR.Removing(d)
    ensures u.at.workspace.rows == t.at.workspace.rows[p.id := d]
    ensures u.at.workspace.directories == t.at.workspace.directories
  {
    StaysGood(t, |t.steps|);
    PG.StatementSucceeds(t.at.workspace, t.h);
    u := Works(t, PR.Statement(P.Works));
    d := u.at.workspace.calls[t.h].d;
  }

  lemma Removes(t: Trace, d: P.Project) returns (u: Trace)
    requires Sound(t) && t.h in t.at.workspace.calls && t.at.workspace.calls[t.h] == PR.Removing(d)
    ensures GoesOn(t, u) && u.at == t.at.(workspace := u.at.workspace)
    ensures t.h in u.at.workspace.calls && u.at.workspace.calls[t.h] == PR.Finished(true)
    ensures u.at.workspace.rows == t.at.workspace.rows - {d.id}
    ensures u.at.workspace.directories == t.at.workspace.directories - {d.id}
  {
    var removed := Works(t, PR.Files(false, false));
    u := Deregisters(removed, d);
  }

  lemma Deregisters(t: Trace, d: P.Project) returns (u: Trace)
    requires Sound(t) && t.h in t.at.workspace.calls && t.at.workspace.calls[t.h] == PR.Erasing(d)
    ensures GoesOn(t, u) && u.at == t.at.(workspace := u.at.workspace)
    ensures t.h in u.at.workspace.calls && u.at.workspace.calls[t.h] == PR.Finished(true)
    ensures u.at.workspace.rows == t.at.workspace.rows - {d.id}
    ensures u.at.workspace.directories == t.at.workspace.directories
  {
    StaysGood(t, |t.steps|);
    PG.StatementSucceeds(t.at.workspace, t.h);
    u := Works(t, PR.Statement(P.Works));
  }

  lemma BeginsDelete(t: Trace, id: string, p: P.Project, call: nat) returns (u: Trace)
    requires Sound(t) && t.h in t.at.handlers && t.at.handlers[t.h] == Stopping(id, p, call)
    requires ER.Returns(t.at.machine.stops, call) && !ER.Fails(t.at.machine.stops, call)
    ensures GoesOn(t, u)
    ensures u.at == t.at.(handlers := t.at.handlers[t.h := Deleting(id, p)],
                          workspace := PR.Set(t.at.workspace, t.h, PR.Claiming(p)))
  {
    u := Take(t, StopReturned(t.h));
  }

  lemma Ends(t: Trace, id: string, p: P.Project) returns (u: Trace)
    requires Sound(t) && t.h in t.at.handlers && t.at.handlers[t.h] == Deleting(id, p)
    requires Returned(t.at, t.h)
    ensures GoesOn(t, u) && u.at == t.at.(handlers := t.at.handlers[t.h := Over], locks := t.at.locks - {id})
  {
    u := Take(t, CallReturned(t.h));
  }

  lemma RowHasId(t: Trace, id: string)
    requires Sound(t) && id in t.at.workspace.rows
    ensures t.at.workspace.rows[id].id == id
  {
    StaysGood(t, |t.steps|);
    RowIsSound(t.at.workspace, id);
  }

  /** With the project stopped the handler goes through. */
  lemma Erases(t: Trace, id: string, p: P.Project, call: nat) returns (u: Trace)
    requires Sound(t) && t.h in t.at.handlers && t.at.handlers[t.h] == Stopping(id, p, call)
    requires ER.Returns(t.at.machine.stops, call) && !ER.Fails(t.at.machine.stops, call)
    requires id in t.at.workspace.rows && t.at.workspace.rows[id] == p && p.state !in {P.Creating, P.Deleting}
    ensures GoesOn(t, u) && u.at.machine == t.at.machine
    ensures u.at.handlers == t.at.handlers[t.h := Over] && u.at.locks == t.at.locks - {id}
    ensures u.at.workspace.rows == t.at.workspace.rows - {id}
    ensures u.at.workspace.directories == t.at.workspace.directories - {id}
  {
    RowHasId(t, id);
    var stopped := BeginsDelete(t, id, p, call);
    var claimed, d := Claims(stopped, p);
    var removed := Removes(claimed, d);
    u := Ends(removed, id, p);
    assert t.at.handlers[t.h := Deleting(id, p)][t.h := Over] == t.at.handlers[t.h := Over];
    assert t.at.workspace.rows[id := d] - {id} == t.at.workspace.rows - {id};
  }

  /** The steps remove the project, and nothing else. */
  ghost predicate Deletes(s: Server, h: nat, id: string, t: Trace) {
    && t.Valid() && t.h == h && t.begin == s
    && t.at.workspace.rows == s.workspace.rows - {id}
    && t.at.workspace.directories == s.workspace.directories - {id}
    && t.at.handlers == s.handlers[h := Over] && t.at.locks == s.locks
  }

  lemma IsStopped(t: Trace, id: string, call: nat) returns (u: Trace)
    requires Sound(t) && Free(t.at, id) && !EP.Doubtful(t.at.machine, Key(t.at.workspace.rows[id]))
    requires t.h !in t.at.handlers && t.h !in t.at.workspace.calls && call !in t.at.machine.stops
    ensures GoesOn(t, u) && u.at.workspace == t.at.workspace && u.at.locks == t.at.locks[id := t.h]
    ensures u.at.handlers == t.at.handlers[t.h := Stopping(id, t.at.workspace.rows[id], call)]
    ensures ER.Returns(u.at.machine.stops, call) && !ER.Fails(u.at.machine.stops, call)
  {
    var asked := Asks(t, id, call);
    AskingLosesNothing(t.at.machine, asked.at.machine, Key(t.at.workspace.rows[id]));
    u := Stops(asked, call);
  }

  lemma IsRemoved(t: Trace, id: string, call: nat) returns (u: Trace)
    requires Sound(t) && Free(t.at, id) && !EP.Doubtful(t.at.machine, Key(t.at.workspace.rows[id]))
    requires t.h !in t.at.handlers && t.h !in t.at.workspace.calls && call !in t.at.machine.stops
    ensures GoesOn(t, u)
    ensures u.at.workspace.rows == t.at.workspace.rows - {id}
    ensures u.at.workspace.directories == t.at.workspace.directories - {id}
    ensures u.at.handlers == t.at.handlers[t.h := Over] && u.at.locks == t.at.locks
  {
    var stopped := IsStopped(t, id, call);
    u := Erases(stopped, id, t.at.workspace.rows[id], call);
    assert t.at.locks[id := t.h] - {id} == t.at.locks;
    assert stopped.at.handlers[t.h := Over] == t.at.handlers[t.h := Over];
  }

  lemma CanBeDeleted(s: Server, h: nat, id: string, call: nat) returns (t: Trace)
    requires Good(s) && Free(s, id) && !EP.Doubtful(s.machine, Key(s.workspace.rows[id]))
    requires h !in s.handlers && h !in s.workspace.calls && call !in s.machine.stops
    ensures Deletes(s, h, id, t)
  {
    t := IsRemoved(Trace(h, s, [], [s], s), id, call);
  }

  lemma AskingLosesNothing(m: ER.Machine, n: ER.Machine, key: string)
    requires n == m.(stops := n.stops)
    ensures EP.Doubtful(n, key) ==> EP.Doubtful(m, key)
  {
    if EP.Doubtful(n, key) {
      var p :| EP.Doubts(n, p, key);
      assert EP.Doubts(m, p, key);
    }
  }

  // A lost exit.

  /** An exit under the project's key was lost, and so the project stands. */
  ghost predicate Pinned(s: Server, p: P.Project, q: nat) {
    EP.Doubts(s.machine, q, Key(p))
  }

  lemma PinnedStands(s: Server, p: P.Project, q: nat)
    requires Good(s) && ValidId(p.id) && Pinned(s, p, q)
    ensures p.id in s.workspace.rows && s.workspace.rows[p.id].token == p.token
    ensures s.workspace.rows[p.id].state == P.Ready
    ensures p.id in s.workspace.directories && s.workspace.directories[p.id] == PR.Directory(Some(p.token), true)
  {
    EP.DoubtIsUnsettled(s.machine, q, Key(p));
    assert Backed(s.workspace.rows, Key(p));
    var id :| id in s.workspace.rows && s.workspace.rows[id].state == P.Ready && Key(s.workspace.rows[id]) == Key(p);
    RowIsSound(s.workspace, id);
    KeysAreInjective(s.workspace.rows[id], p);
    assert PR.DirectoryGood(s.workspace.rows, s.workspace.directories, id);
  }

  lemma PinnedStays(s: Server, step: Step, t: Server, p: P.Project, q: nat)
    requires Good(s) && Steps(s, step, t) && Pinned(s, p, q)
    ensures Pinned(t, p, q)
  {
    MachineSteps(s, step);
    if Motion(s, step).Some? {
      EP.DoubtStays(s.machine, Motion(s, step).value, t.machine, q, Key(p));
    }
  }

  lemma PinnedNext(states: seq<Server>, steps: seq<Step>, n: nat, p: P.Project, q: nat)
    requires Run(states, steps) && n < |steps| && Pinned(states[n], p, q)
    ensures Pinned(states[n + 1], p, q)
  {
    AlwaysGood(states, steps, n);
    assert Steps(states[n], steps[n], states[n + 1]);
    PinnedStays(states[n], steps[n], states[n + 1], p, q);
  }

  lemma {:induction false} PinnedForGood(states: seq<Server>, steps: seq<Step>, m: nat, n: nat, p: P.Project, q: nat)
    requires Run(states, steps) && m <= n < |states| && Pinned(states[m], p, q)
    ensures Pinned(states[n], p, q)
    decreases n
  {
    if m < n {
      PinnedForGood(states, steps, m, n - 1, p, q);
      PinnedNext(states, steps, n - 1, p, q);
    }
  }

  /** Once an exit is lost, its project stays ready, with its files, for good: no interleaving of
      requests deletes it. */
  lemma LostExitPinsProject(states: seq<Server>, steps: seq<Step>, m: nat, n: nat, p: P.Project, q: nat)
    requires Run(states, steps) && m <= n < |states| && ValidId(p.id) && Pinned(states[m], p, q)
    ensures var w := states[n].workspace;
            && p.id in w.rows && w.rows[p.id].token == p.token && w.rows[p.id].state == P.Ready
            && p.id in w.directories && w.directories[p.id] == PR.Directory(Some(p.token), true)
  {
    AlwaysGood(states, steps, n);
    PinnedForGood(states, steps, m, n, p, q);
    PinnedStands(states[n], p, q);
  }

  lemma TraceKeepsPinned(t: Trace, k: nat, p: P.Project, q: nat)
    requires Sound(t) && k < |t.steps| && Pinned(t.passed[k], p, q)
    ensures Pinned(t.passed[k + 1], p, q)
  {
    StaysGood(t, k);
    StepOf(t, k);
    PinnedStays(t.passed[k], t.steps[k], t.passed[k + 1], p, q);
  }

  lemma {:induction false} TraceStaysPinned(t: Trace, k: nat, p: P.Project, q: nat)
    requires Sound(t) && k <= |t.steps| && Pinned(t.begin, p, q)
    ensures Pinned(t.passed[k], p, q)
    decreases k
  {
    if k > 0 {
      TraceStaysPinned(t, k - 1, p, q);
      TraceKeepsPinned(t, k - 1, p, q);
    }
  }

  // Exactly when.

  /** From every reachable state a project that nothing else is working on can be deleted if and
      only if no exit under its key was lost. It takes one new request, and that launchers return
      and processes end; the rows, files and locks of all others stay as they are. */
  lemma DeletableIffNothingLost(states: seq<Server>, steps: seq<Step>, n: nat, h: nat, id: string, call: nat)
    requires Run(states, steps) && n < |states| && Free(states[n], id)
    requires h !in states[n].handlers && h !in states[n].workspace.calls && call !in states[n].machine.stops
    ensures (exists t :: Deletes(states[n], h, id, t))
            <==> !EP.Doubtful(states[n].machine, Key(states[n].workspace.rows[id]))
  {
    AlwaysGood(states, steps, n);
    var s, p := states[n], states[n].workspace.rows[id];
    if EP.Doubtful(s.machine, Key(p)) {
      var q :| EP.Doubts(s.machine, q, Key(p));
      forall t
        ensures !Deletes(s, h, id, t)
      {
        LostExitBlocks(s, h, id, q, t);
      }
    } else {
      var t := CanBeDeleted(s, h, id, call);
      assert Deletes(s, h, id, t);
    }
  }

  lemma LostExitBlocks(s: Server, h: nat, id: string, q: nat, t: Trace)
    requires Good(s) && id in s.workspace.rows && Pinned(s, s.workspace.rows[id], q)
    ensures !Deletes(s, h, id, t)
  {
    var p := s.workspace.rows[id];
    if Deletes(s, h, id, t) {
      RowIsSound(s.workspace, id);
      TraceStaysPinned(t, |t.steps|, p, q);
      StaysGood(t, |t.steps|);
      PinnedStands(t.at, p, q);
    }
  }
}
