/** The harness's output on its way into the terminal: the copying goroutine and the one that
    joins it, finishes the terminal and publishes the exit (internal/wrapper/output.go,
    internal/wrapper/server.go). This is why the terminal has one writer that ends before
    finish, and why a pseudo-terminal that somebody keeps open cannot hold up the end. */
module HarnessOutput {
  import opened Wrappers
  import opened Words

  /** The goroutine that copies. Stopping is the shutdown after a failed read. */
  datatype Reader = Reading | Writing(data: Bytes) | Stopping | Reporting(failed: bool) | Ended

  /** copyHarnessOutput and what its caller does when it returns. */
  datatype Owner =
    | AwaitingExit
    | Selecting
    | ShuttingDown
    | Receiving
    | Leaving(failed: bool)
    | Finishing(failed: bool)
    | AwaitingAgain(failed: bool)
    | Publishing(failed: bool)
    | Over(failed: bool)

  /** The pseudo-terminal: everything written to it, what of it is unread, whether nobody can
      write to it any more, and whether this end of it is closed. */
  datatype Pty = Pty(written: Bytes, unread: Bytes, hungUp: bool, shut: bool)

  /** What ended the reading: nobody could write any more, this end of the pseudo-terminal was
      closed, or a read failed. */
  datatype Ending = NotYet | HangUp | CutOff | Failure

  /** read is everything the reader got; stream and finished are the terminal's. done is the
      channel between the two goroutines, with room for one value. */
  datatype Copying = Copying(
    reader: Reader, owner: Owner, done: Option<bool>, exited: bool, pty: Pty,
    read: Bytes, ending: Ending, stream: Bytes, finished: bool, harnessDone: bool)

  /** The first two are the goroutines' own; timeout is the end of the drain period, which
      always comes. The others are up to the harness and its descendants, and the system. */
  datatype Step =
    | ReaderSteps(n: nat)
    | OwnerSteps(timeout: bool)
    | HarnessWrites(data: Bytes)
    | HarnessHangsUp
    | HarnessExits
    | PtyCloses
    | ReadFails

  const FRESH := Copying(Reading, AwaitingExit, None, false, Pty([], [], false, false), [], NotYet, [], false, false)

  predicate Own(step: Step) {
    step.ReaderSteps? || step.OwnerSteps?
  }

  /** A read returns n unread bytes, or the end once nobody can write or the pseudo-terminal is
      closed; otherwise it blocks. */
  predicate MayRead(pty: Pty, n: nat) {
    pty.shut || 0 < n <= |pty.unread| || (pty.unread == [] && pty.hungUp)
  }

  predicate MayOwn(s: Copying, timeout: bool) {
    match s.owner
    case AwaitingExit => s.exited
    case Selecting => timeout || s.done.Some?
    case Receiving => s.done.Some?
    case AwaitingAgain(_) => s.exited
    case Over(_) => false
    case _ => true
  }

  predicate Allowed(s: Copying, step: Step) {
    match step
    case ReaderSteps(n) =>
      (match s.reader
       case Reading => MayRead(s.pty, n)
       case Reporting(_) => s.done.None?
       case Ended => false
       case _ => true)
    case OwnerSteps(timeout) => MayOwn(s, timeout)
    case HarnessWrites(_) => !s.pty.hungUp && !s.pty.shut
    case ReadFails => s.reader.Reading? && !s.pty.shut
    case _ => true
  }

  function AfterRead(s: Copying, n: nat): Copying {
    if !s.pty.shut && 0 < n <= |s.pty.unread| then
      var data := s.pty.unread[..n];
      s.(reader := Writing(data), read := s.read + data, pty := s.pty.(unread := s.pty.unread[n..]))
    else s.(reader := Reporting(false), ending := if s.pty.shut then CutOff else HangUp)
  }

  function AfterReaderSteps(s: Copying, n: nat): Copying {
    match s.reader
    case Reading => AfterRead(s, n)
    case Writing(data) => s.(reader := Reading, stream := s.stream + data)
    case Stopping => s.(reader := Reporting(true), pty := s.pty.(shut := true))
    case Reporting(failed) => s.(reader := Ended, done := Some(failed))
    case Ended => s
  }

  function AfterOwnerSteps(s: Copying, timeout: bool): Copying
    requires MayOwn(s, timeout)
  {
    match s.owner
    case AwaitingExit => s.(owner := Selecting)
    case Selecting =>
      if timeout then s.(owner := ShuttingDown) else s.(owner := Leaving(s.done.value), done := None)
    case ShuttingDown => s.(owner := Receiving, pty := s.pty.(shut := true))
    case Receiving => s.(owner := Leaving(s.done.value), done := None)
    case Leaving(failed) => s.(owner := Finishing(failed), pty := s.pty.(shut := true))
    case Finishing(failed) => s.(owner := AwaitingAgain(failed), finished := true)
    case AwaitingAgain(failed) => s.(owner := Publishing(failed))
    case Publishing(failed) => s.(owner := Over(failed), harnessDone := true)
  }

  function After(s: Copying, step: Step): Copying
    requires Allowed(s, step)
  {
    match step
    case ReaderSteps(n) => AfterReaderSteps(s, n)
    case OwnerSteps(timeout) => AfterOwnerSteps(s, timeout)
    case HarnessWrites(data) =>
      s.(pty := s.pty.(written := s.pty.written + data, unread := s.pty.unread + data))
    case HarnessHangsUp => s.(pty := s.pty.(hungUp := true))
    case HarnessExits => s.(exited := true)
    case PtyCloses => s.(pty := s.pty.(shut := true))
    case ReadFails => s.(reader := Stopping, ending := Failure)
  }

  ghost predicate Steps(s: Copying, step: Step, t: Copying) {
    Allowed(s, step) && t == After(s, step)
  }

  ghost predicate Run(states: seq<Copying>, steps: seq<Step>) {
    && |states| == |steps| + 1
    && states[0] == FRESH
    && forall i, j {:trigger Steps(states[i], steps[i], states[j])} ::
      0 <= i < |steps| && j == i + 1 ==> Steps(states[i], steps[i], states[j])
  }

  // The invariant.

  /** The copying goroutine has been joined. */
  predicate Joined(owner: Owner) {
    !owner.AwaitingExit? && !owner.Selecting? && !owner.ShuttingDown? && !owner.Receiving?
  }

  predicate Stops(reader: Reader) {
    reader.Stopping? || reader.Reporting? || reader.Ended?
  }

  function InHand(reader: Reader): Bytes {
    if reader.Writing? then reader.data else []
  }

  /** Every byte is in the terminal, in the reader's hand, or unread; a reader that was not cut
      off left nothing unread. */
  ghost predicate BytesGood(s: Copying) {
    && s.stream + InHand(s.reader) == s.read
    && s.read + s.pty.unread == s.pty.written
    && (s.ending.HangUp? ==> s.pty.hungUp && s.pty.unread == [])
  }

  /** What the owner knows of the copying goroutine's error once it is joined. */
  function Verdict(owner: Owner): Option<bool> {
    match owner
    case Leaving(failed) => Some(failed)
    case Finishing(failed) => Some(failed)
    case AwaitingAgain(failed) => Some(failed)
    case Publishing(failed) => Some(failed)
    case Over(failed) => Some(failed)
    case _ => None
  }

  /** The error on its way from the failed read to whoever waits for the wrapper. */
  ghost predicate VerdictGood(s: Copying) {
    && (Stops(s.reader) <==> !s.ending.NotYet?)
    && (s.reader.Stopping? ==> s.ending.Failure?)
    && (s.reader.Reporting? ==> (s.reader.failed <==> s.ending.Failure?))
    && (s.done.Some? ==> (s.done.value <==> s.ending.Failure?))
    && (Verdict(s.owner).Some? ==> (Verdict(s.owner).value <==> s.ending.Failure?))
  }

  ghost predicate Inv(s: Copying) {
    && (s.done.Some? || Joined(s.owner) ==> s.reader.Ended?)
    && (s.reader.Ended? && !Joined(s.owner) ==> s.done.Some?)
    && (s.finished <==> s.owner.AwaitingAgain? || s.owner.Publishing? || s.owner.Over?)
    && (s.harnessDone <==> s.owner.Over?)
    && (!s.owner.AwaitingExit? ==> s.exited)
    && (s.owner.Receiving? ==> s.pty.shut)
    && VerdictGood(s)
    && BytesGood(s)
  }

  lemma ReaderKeepsBytes(s: Copying, n: nat)
    requires BytesGood(s) && Allowed(s, ReaderSteps(n))
    ensures BytesGood(AfterReaderSteps(s, n))
  {
    match s.reader
    case Reading =>
      if !s.pty.shut && 0 < n <= |s.pty.unread| {
        assert s.read + s.pty.unread[..n] + s.pty.unread[n..] == s.read + s.pty.unread;
        assert s.stream + [] == s.stream;
      }
    case Writing(data) => assert s.stream + data + [] == s.stream + data;
    case Stopping =>
    case Reporting(_) =>
  }

  lemma StepKeepsBytes(s: Copying, step: Step)
    requires BytesGood(s) && Allowed(s, step)
    ensures BytesGood(After(s, step))
  {
    match step
    case ReaderSteps(n) => ReaderKeepsBytes(s, n);
    case HarnessWrites(data) => assert s.read + (s.pty.unread + data) == s.read + s.pty.unread + data;
    case OwnerSteps(_) =>
    case HarnessHangsUp =>
    case HarnessExits =>
    case PtyCloses =>
    case ReadFails =>
  }

  lemma StepKeepsInv(s: Copying, step: Step)
    requires Inv(s) && Allowed(s, step)
    ensures Inv(After(s, step))
    ensures s.finished ==> After(s, step).finished && After(s, step).stream == s.stream
  {
    StepKeepsBytes(s, step);
  }

  lemma {:induction false} AlwaysGood(states: seq<Copying>, steps: seq<Step>, n: nat)
    requires Run(states, steps) && n < |states|
    ensures Inv(states[n])
    decreases n
  {
    if n > 0 {
      AlwaysGood(states, steps, n - 1);
      assert Steps(states[n - 1], steps[n - 1], states[n]);
      StepKeepsInv(states[n - 1], steps[n - 1]);
    }
  }

  // Output.

  /** finish comes after the last write, and by then everything that was read is written. */
  lemma {:induction false} WritesEndBeforeFinish(states: seq<Copying>, steps: seq<Step>, m: nat, n: nat)
    requires Run(states, steps) && m <= n < |states| && states[m].finished
    ensures states[n].finished && states[n].stream == states[m].stream == states[n].read
    ensures !states[n].reader.Writing?
    decreases n
  {
    AlwaysGood(states, steps, n);
    if m < n {
      WritesEndBeforeFinish(states, steps, m, n - 1);
      AlwaysGood(states, steps, n - 1);
      assert Steps(states[n - 1], steps[n - 1], states[n]);
      StepKeepsInv(states[n - 1], steps[n - 1]);
    }
    assert states[n].stream + [] == states[n].stream;
  }

  /** The whole output is in the terminal, except what was cut off with the reader; and an
      error is passed on exactly when a read failed. */
  ghost predicate Complete(s: Copying) {
    && s.exited && s.finished && !s.ending.NotYet?
    && (s.owner.Over? ==> (s.owner.failed <==> s.ending.Failure?))
    && s.stream == s.read <= s.pty.written
    && (s.ending.HangUp? ==> s.stream == s.pty.written)
  }

  lemma DoneIsComplete(s: Copying)
    requires Inv(s) && s.harnessDone
    ensures Complete(s)
  {
    assert s.stream + [] == s.stream;
    assert s.read + [] == s.read;
  }

  /** The exit is published only when the harness has exited and everything read is in the
      terminal; that is all the harness wrote, unless a read failed or the pseudo-terminal was
      closed before its end was seen. */
  lemma ExitFollowsOutput(states: seq<Copying>, steps: seq<Step>, n: nat)
    requires Run(states, steps) && n < |states| && states[n].harnessDone
    ensures Complete(states[n])
  {
    AlwaysGood(states, steps, n);
    DoneIsComplete(states[n]);
  }

  // The end is reached.

  function OwnerWork(owner: Owner): nat {
    match owner
    case AwaitingExit => 8
    case Selecting => 7
    case ShuttingDown => 6
    case Receiving => 5
    case Leaving(_) => 4
    case Finishing(_) => 3
    case AwaitingAgain(_) => 2
    case Publishing(_) => 1
    case Over(_) => 0
  }

  function ReaderWork(reader: Reader): nat {
    match reader
    case Writing(_) => 4
    case Reading => 3
    case Stopping => 2
    case Reporting(_) => 1
    case Ended => 0
  }

  /** A bound on the goroutines' own steps, as long as nothing more is written. */
  function Work(s: Copying): nat {
    OwnerWork(s.owner) + ReaderWork(s.reader) + 2 * |s.pty.unread|
  }

  /** Nothing written is taken back, and nothing is written to a closed pseudo-terminal. */
  ghost predicate Later(before: Pty, after: Pty) {
    |before.written| <= |after.written| && (before.shut ==> after.shut && after.written == before.written)
  }

  lemma OwnerWorks(s: Copying, timeout: bool)
    requires MayOwn(s, timeout)
    ensures var t := AfterOwnerSteps(s, timeout);
            Work(t) < Work(s) && Later(s.pty, t.pty) && t.pty.written == s.pty.written
  {
  }

  lemma ReaderWorks(s: Copying, n: nat)
    requires Allowed(s, ReaderSteps(n))
    ensures var t := AfterReaderSteps(s, n);
            Work(t) < Work(s) && Later(s.pty, t.pty) && t.pty.written == s.pty.written
  {
  }

  lemma StepWorks(s: Copying, step: Step)
    requires Allowed(s, step)
    ensures Later(s.pty, After(s, step).pty)
    ensures Work(After(s, step)) + (if Own(step) then 1 else 0)
            <= Work(s) + 2 * (|After(s, step).pty.written| - |s.pty.written|)
  {
    match step
    case OwnerSteps(timeout) => OwnerWorks(s, timeout);
    case ReaderSteps(n) => ReaderWorks(s, n);
    case HarnessWrites(_) =>
    case HarnessHangsUp =>
    case HarnessExits =>
    case PtyCloses =>
    case ReadFails =>
  }

  /** The goroutines' own steps among steps[m..n]. */
  function OwnSteps(steps: seq<Step>, m: nat, n: nat): nat
    requires m <= n <= |steps|
  {
    if m == n then 0 else OwnSteps(steps, m, n - 1) + (if Own(steps[n - 1]) then 1 else 0)
  }

  /** Between any two states of a run the goroutines take only so many steps: a constant, and
      two for each byte that was unread or came in. After the pseudo-terminal is closed no
      more bytes come in. */
  lemma {:induction false} OwnStepsAreBounded(states: seq<Copying>, steps: seq<Step>, m: nat, n: nat)
    requires Run(states, steps) && m <= n < |states|
    ensures Later(states[m].pty, states[n].pty)
    ensures OwnSteps(steps, m, n) + Work(states[n])
            <= Work(states[m]) + 2 * (|states[n].pty.written| - |states[m].pty.written|)
    decreases n
  {
    if m < n {
      OwnStepsAreBounded(states, steps, m, n - 1);
      StepInRunWorks(states, steps, n - 1);
    }
  }

  lemma StepInRunWorks(states: seq<Copying>, steps: seq<Step>, n: nat)
    requires Run(states, steps) && n < |steps|
    ensures Later(states[n].pty, states[n + 1].pty)
    ensures Work(states[n + 1]) + (if Own(steps[n]) then 1 else 0)
            <= Work(states[n]) + 2 * (|states[n + 1].pty.written| - |states[n].pty.written|)
  {
    assert Steps(states[n], steps[n], states[n + 1]);
    StepWorks(states[n], steps[n]);
  }

  /** Once the harness has exited, one of the two goroutines can go on by itself until all is
      over, even if somebody keeps the pseudo-terminal open and a read blocks. */
  lemma NeverStuck(s: Copying) returns (step: Step)
    requires Inv(s) && s.exited && !s.owner.Over?
    ensures Own(step) && Allowed(s, step)
  {
    step := if MayOwn(s, true) then OwnerSteps(true) else ReaderSteps(0);
  }

  /** The steps take s to t, and are all the goroutines' own. */
  ghost predicate OwnPath(s: Copying, path: seq<Step>, t: Copying)
    decreases |path|
  {
    if path == [] then s == t
    else Own(path[0]) && Allowed(s, path[0]) && OwnPath(After(s, path[0]), path[1..], t)
  }

  lemma {:induction false} EndFrom(s: Copying) returns (path: seq<Step>, t: Copying)
    requires Inv(s) && s.exited
    ensures OwnPath(s, path, t) && t.owner.Over? && |path| <= Work(s)
    decreases Work(s)
  {
    path, t := [], s;
    if !s.owner.Over? {
      var step := NeverStuck(s);
      StepKeepsInv(s, step);
      OwnStepWorks(s, step);
      var rest;
      rest, t := EndFrom(After(s, step));
      path := [step] + rest;
      assert path[1..] == rest;
    }
  }

  lemma OwnStepWorks(s: Copying, step: Step)
    requires Allowed(s, step) && Own(step) && s.exited
    ensures Work(After(s, step)) < Work(s) && After(s, step).exited
  {
    match step
    case OwnerSteps(timeout) => OwnerWorks(s, timeout);
    case ReaderSteps(n) => ReaderWorks(s, n);
  }

  /** From every state of every run in which the harness has exited, the goroutines reach the
      end by themselves, in no more steps than the bound: nobody outside is needed. */
  lemma EndIsReached(states: seq<Copying>, steps: seq<Step>, n: nat) returns (path: seq<Step>, t: Copying)
    requires Run(states, steps) && n < |states| && states[n].exited
    ensures OwnPath(states[n], path, t) && t.owner.Over? && |path| <= Work(states[n])
  {
    AlwaysGood(states, steps, n);
    path, t := EndFrom(states[n]);
  }
}
