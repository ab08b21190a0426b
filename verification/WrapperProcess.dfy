/** One wrapper subprocess: startWrapper, the goroutine that reads its two lifecycle records
    and the one that joins everything and closes done (internal/server/wrapper.go). The
    execution manager relies on the outcomes proved here. */
module WrapperProcess {
  import opened Wrappers
  import ER = ExecutionRuns

  /** What a scan of the wrapper's output finds: a startup record with an address or with an
      error, an exit record with a result, anything else, or the end. */
  datatype Line = Ready | SetupError | Exit(result: int) | Garbage | Nothing

  datatype Reader = ScanningStartup | ScanningExit | Discarding | ReadDone

  datatype Waiter = AwaitingChild | AwaitingReader | ClosingOutput | JoiningReader | ClosingDone | Over

  /** Returned(false, true) is an error without a process. */
  datatype Starter =
    | Preparing
    | AwaitingStartup
    | ShuttingDown(setupFailed: bool)
    | Joining(setupFailed: bool)
    | Returned(keeps: bool, failed: bool)

  /** startup is the channel between the reader and the starter, seen what the starter got out
      of it before its deadline. lines is what the reader scanned. */
  datatype State = State(
    starter: Starter, reader: Reader, waiter: Waiter, spawned: bool, running: bool,
    startup: Option<Line>, seen: Option<Line>, result: Option<int>, done: bool, lines: seq<Line>)

  datatype Step =
    | StarterSteps(fails: bool, expired: bool)
    | ReaderSteps(line: Line)
    | WaiterSteps(expired: bool)
    | ChildExits

  const FRESH := State(Preparing, ScanningStartup, AwaitingChild, false, false, None, None, None, false, [])

  predicate Allowed(s: State, step: Step) {
    match step
    case StarterSteps(_, expired) =>
      (match s.starter
       case Preparing => true
       case AwaitingStartup => expired || s.startup.Some?
       case ShuttingDown(_) => true
       case Joining(_) => s.done
       case Returned(_, _) => false)
    case ReaderSteps(_) => s.spawned && !s.reader.ReadDone?
    case WaiterSteps(expired) =>
      s.spawned &&
      (match s.waiter
       case AwaitingChild => !s.running
       case AwaitingReader => expired || s.reader.ReadDone?
       case JoiningReader => s.reader.ReadDone?
       case Over => false
       case _ => true)
    case ChildExits => s.running
  }

  /** fails: the pipe or the process could not be made. expired: the startup deadline. */
  function AfterStarterSteps(s: State, fails: bool, expired: bool): State
    requires Allowed(s, StarterSteps(fails, expired))
  {
    match s.starter
    case Preparing =>
      if fails then s.(starter := Returned(false, true))
      else s.(starter := AwaitingStartup, spawned := true, running := true)
    case AwaitingStartup =>
      if expired then s.(starter := ShuttingDown(false))
      else if s.startup.value.Ready? then s.(starter := Returned(true, false), seen := s.startup)
      else s.(starter := ShuttingDown(s.startup.value.SetupError?), seen := s.startup)
    case ShuttingDown(setupFailed) => s.(starter := Joining(setupFailed))
    case Joining(setupFailed) => s.(starter := Returned(!setupFailed, true))
    case Returned(_, _) => s
  }

  function AfterReaderSteps(s: State, line: Line): State {
    match s.reader
    case ScanningStartup => s.(reader := ScanningExit, startup := Some(line), lines := [line])
    case ScanningExit =>
      s.(reader := Discarding, lines := s.lines + [line],
         result := if line.Exit? then Some(line.result) else None)
    case Discarding => s.(reader := ReadDone)
    case ReadDone => s
  }

  function AfterWaiterSteps(s: State): State {
    match s.waiter
    case AwaitingChild => s.(waiter := AwaitingReader)
    case AwaitingReader => s.(waiter := ClosingOutput)
    case ClosingOutput => s.(waiter := JoiningReader)
    case JoiningReader => s.(waiter := ClosingDone)
    case ClosingDone => s.(waiter := Over, done := true)
    case Over => s
  }

  function After(s: State, step: Step): State
    requires Allowed(s, step)
  {
    match step
    case StarterSteps(fails, expired) => AfterStarterSteps(s, fails, expired)
    case ReaderSteps(line) => AfterReaderSteps(s, line)
    case WaiterSteps(_) => AfterWaiterSteps(s)
    case ChildExits => s.(running := false)
  }

  ghost predicate Steps(s: State, step: Step, t: State) {
    Allowed(s, step) && t == After(s, step)
  }

  ghost predicate Run(states: seq<State>, steps: seq<Step>) {
    && |states| == |steps| + 1
    && states[0] == FRESH
    && forall i, j {:trigger Steps(states[i], steps[i], states[j])} ::
      0 <= i < |steps| && j == i + 1 ==> Steps(states[i], steps[i], states[j])
  }

  /** The wrapper itself reported that it could not start its harness. */
  predicate Refused(s: State) {
    s.seen == Some(SetupError)
  }

  ghost predicate Inv(s: State) {
    && (s.waiter.ClosingDone? || s.waiter.Over? ==> s.reader.ReadDone?)
    && (!s.waiter.AwaitingChild? ==> s.spawned && !s.running)
    && (s.done <==> s.waiter.Over?)
    && |s.lines| == (match s.reader case ScanningStartup => 0 case ScanningExit => 1 case _ => 2)
    && s.startup == (if |s.lines| > 0 then Some(s.lines[0]) else None)
    && s.result == (if |s.lines| == 2 && s.lines[1].Exit? then Some(s.lines[1].result) else None)
    && (s.seen.Some? ==> s.spawned && s.seen == s.startup)
    && (match s.starter
        case Preparing => !s.spawned && s.seen.None?
        case AwaitingStartup => s.spawned && s.seen.None?
        case ShuttingDown(setupFailed) => s.spawned && s.seen != Some(Ready) && (setupFailed <==> Refused(s))
        case Joining(setupFailed) => s.spawned && s.seen != Some(Ready) && (setupFailed <==> Refused(s))
        case Returned(keeps, failed) =>
          && (keeps <==> s.spawned && !Refused(s))
          && (failed <==> s.seen != Some(Ready))
          && (failed && s.spawned ==> s.done))
  }

  lemma StepKeepsInv(s: State, step: Step)
    requires Inv(s) && Allowed(s, step)
    ensures Inv(After(s, step))
    ensures s.done ==> After(s, step).done && After(s, step).result == s.result
  {
  }

  lemma {:induction false} AlwaysGood(states: seq<State>, steps: seq<Step>, n: nat)
    requires Run(states, steps) && n < |states|
    ensures Inv(states[n])
    decreases n
  {
    if n > 0 {
      AlwaysGood(states, steps, n - 1);
      assert Steps(states[n - 1], steps[n - 1], states[n]);
      StepKeepsInv(states[n - 1], steps[n - 1]);
    }
  }

  /** done means that the child is gone and its records are read, and from then on the result
      is fixed: the exit record if it came second, and otherwise none. */
  lemma {:induction false} ResultIsFixedOnceDone(states: seq<State>, steps: seq<Step>, m: nat, n: nat)
    requires Run(states, steps) && m <= n < |states| && states[m].done
    ensures states[n].done && !states[n].running && states[n].result == states[m].result
    ensures |states[n].lines| == 2
    ensures states[n].result == if states[n].lines[1].Exit? then Some(states[n].lines[1].result) else None
    decreases n
  {
    AlwaysGood(states, steps, n);
    if m < n {
      ResultIsFixedOnceDone(states, steps, m, n - 1);
      AlwaysGood(states, steps, n - 1);
      assert Steps(states[n - 1], steps[n - 1], states[n]);
      StepKeepsInv(states[n - 1], steps[n - 1]);
    }
  }

  /** What startWrapper returns. It fails unless an address came before the deadline, and then
      the child, if there was one, is done. It keeps the child unless there is none or its own
      record says that no harness was started. This fits the contract the execution manager
      asks of a launcher: without a process it fails and leaves no live child, and otherwise it
      returns its child. */
  lemma OutcomesFitContract(states: seq<State>, steps: seq<Step>, n: nat, machine: ER.Machine, p: nat)
    requires Run(states, steps) && n < |states| && states[n].starter.Returned?
    requires p in machine.processes && machine.processes[p].done == states[n].done
    ensures var s := states[n];
            && (s.starter.failed <==> s.seen != Some(Ready))
            && (s.starter.keeps <==> s.spawned && s.seen != Some(SetupError))
            && (s.seen.Some? ==> |s.lines| > 0 && s.lines[0] == s.seen.value)
            && (s.starter.failed && s.spawned ==> s.done && !s.running)
    ensures var child := if states[n].spawned then Some(p) else None;
            var process := if states[n].starter.keeps then Some(p) else None;
            && ER.MayReturn(machine, child, process, states[n].starter.failed)
            && (states[n].starter.failed || process.Some?)
  {
    AlwaysGood(states, steps, n);
  }
}
