/** Registration of handlers against shutdown: a mutex, a flag that refuses newcomers, and a
    wait group. The server (internal/server/server.go) and the wrapper
    (internal/wrapper/server.go, internal/wrapper/websocket.go) both use it. Each step is one
    operation of one goroutine. */
module Gate {
  import opened Wrappers

  /** Where a handler stands; from Checking to Added and in Refusing it holds the mutex. */
  datatype Handler = Arriving | Checking | Adding | Added | Serving | Refusing | Gone

  /** Where a goroutine stands that shuts the gate; Shutting and Unlocking hold the mutex. */
  datatype Stopper = Locking | Shutting | Unlocking | Stopped

  datatype Holder = HandlerHolds(h: nat) | StopperHolds(k: nat)

  /** shut is the canceled context, or the draining flag; count is the wait group. */
  datatype Gate = Gate(
    mutex: Option<Holder>, shut: bool, count: int, handlers: map<nat, Handler>, stoppers: map<nat, Stopper>)

  /** ShutOutside: the context is canceled by its parent, without the mutex. */
  datatype Step = Request(h: nat) | Handle(h: nat) | CallStop(k: nat) | Stop(k: nat) | ShutOutside

  const OPEN := Gate(None, false, 0, map[], map[])

  predicate Allowed(g: Gate, step: Step) {
    match step
    case Request(h) => h !in g.handlers
    case Handle(h) => h in g.handlers && !g.handlers[h].Gone? && (g.handlers[h].Arriving? ==> g.mutex.None?)
    case CallStop(k) => k !in g.stoppers
    case Stop(k) => k in g.stoppers && !g.stoppers[k].Stopped? && (g.stoppers[k].Locking? ==> g.mutex.None?)
    case ShutOutside => true
  }

  function Become(g: Gate, h: nat, handler: Handler): Gate {
    g.(handlers := g.handlers[h := handler])
  }

  /** Newcomers are counted under the mutex, and only while the gate is open. */
  function AfterHandle(g: Gate, h: nat): Gate
    requires h in g.handlers
  {
    match g.handlers[h]
    case Arriving => Become(g, h, Checking).(mutex := Some(HandlerHolds(h)))
    case Checking => Become(g, h, if g.shut then Refusing else Adding)
    case Adding => Become(g, h, Added).(count := g.count + 1)
    case Added => Become(g, h, Serving).(mutex := None)
    case Serving => Become(g, h, Gone).(count := g.count - 1)
    case Refusing => Become(g, h, Gone).(mutex := None)
    case Gone => g
  }

  function AfterStop(g: Gate, k: nat): Gate
    requires k in g.stoppers
  {
    match g.stoppers[k]
    case Locking => g.(stoppers := g.stoppers[k := Shutting], mutex := Some(StopperHolds(k)))
    case Shutting => g.(stoppers := g.stoppers[k := Unlocking], shut := true)
    case Unlocking => g.(stoppers := g.stoppers[k := Stopped], mutex := None)
    case Stopped => g
  }

  function After(g: Gate, step: Step): Gate
    requires Allowed(g, step)
  {
    match step
    case Request(h) => Become(g, h, Arriving)
    case Handle(h) => AfterHandle(g, h)
    case CallStop(k) => g.(stoppers := g.stoppers[k := Locking])
    case Stop(k) => AfterStop(g, k)
    case ShutOutside => g.(shut := true)
  }

  ghost predicate Steps(g: Gate, step: Step, f: Gate) {
    Allowed(g, step) && f == After(g, step)
  }

  // The invariant.

  predicate Inside(handler: Handler) {
    handler.Checking? || handler.Adding? || handler.Added? || handler.Refusing?
  }

  predicate StopperInside(stopper: Stopper) {
    stopper.Shutting? || stopper.Unlocking?
  }

  predicate Holds(holder: Holder, handlers: map<nat, Handler>, stoppers: map<nat, Stopper>) {
    match holder
    case HandlerHolds(h) => h in handlers && Inside(handlers[h])
    case StopperHolds(k) => k in stoppers && StopperInside(stoppers[k])
  }

  /** Whoever is inside holds the mutex, and whoever holds it is inside. */
  ghost predicate MutexGood(mutex: Option<Holder>, handlers: map<nat, Handler>, stoppers: map<nat, Stopper>) {
    && (forall h <- handlers :: Inside(handlers[h]) ==> mutex == Some(HandlerHolds(h)))
    && (forall k <- stoppers :: StopperInside(stoppers[k]) ==> mutex == Some(StopperHolds(k)))
    && (mutex.Some? ==> Holds(mutex.value, handlers, stoppers))
  }

  predicate Counts(handler: Handler) {
    handler.Added? || handler.Serving?
  }

  function Counted(handlers: map<nat, Handler>): set<nat> {
    set h | h in handlers && Counts(handlers[h])
  }

  ghost predicate NoneRegisters(handlers: map<nat, Handler>) {
    forall h <- handlers :: !handlers[h].Adding?
  }

  /** A stopper has been through: from then on the gate is shut and nobody slips in. */
  predicate HasShut(stoppers: map<nat, Stopper>, k: nat) {
    k in stoppers && (stoppers[k].Unlocking? || stoppers[k].Stopped?)
  }

  ghost predicate ShutGood(g: Gate) {
    forall k <- g.stoppers :: HasShut(g.stoppers, k) ==> g.shut && NoneRegisters(g.handlers)
  }

  ghost predicate Inv(g: Gate) {
    && MutexGood(g.mutex, g.handlers, g.stoppers)
    && g.count == |Counted(g.handlers)|
    && ShutGood(g)
  }

  lemma HandleKeepsMutex(g: Gate, h: nat)
    requires MutexGood(g.mutex, g.handlers, g.stoppers) && Allowed(g, Handle(h))
    ensures var f := AfterHandle(g, h); MutexGood(f.mutex, f.handlers, f.stoppers)
  {
  }

  lemma StepKeepsMutex(g: Gate, step: Step, f: Gate)
    requires MutexGood(g.mutex, g.handlers, g.stoppers) && Steps(g, step, f)
    ensures MutexGood(f.mutex, f.handlers, f.stoppers)
  {
    match step
    case Request(_) =>
    case Handle(h) => HandleKeepsMutex(g, h);
    case CallStop(_) =>
    case Stop(_) =>
    case ShutOutside =>
  }

  lemma CountedAfter(handlers: map<nat, Handler>, h: nat, next: Handler)
    ensures Counted(handlers[h := next]) == if Counts(next) then Counted(handlers) + {h} else Counted(handlers) - {h}
  {
  }

  lemma CountChanges(handlers: map<nat, Handler>, h: nat, next: Handler)
    requires h in handlers
    ensures |Counted(handlers[h := next])| ==
              |Counted(handlers)| + (if Counts(next) then 1 else 0) - (if Counts(handlers[h]) then 1 else 0)
  {
    CountedAfter(handlers, h, next);
    var before := Counted(handlers);
    if Counts(handlers[h]) {
      assert h in before && before == (before - {h}) + {h};
      assert before + {h} == before;
    } else {
      assert h !in before && before - {h} == before;
    }
  }

  lemma StepKeepsCount(g: Gate, step: Step, f: Gate)
    requires g.count == |Counted(g.handlers)| && Steps(g, step, f)
    ensures f.count == |Counted(f.handlers)|
  {
    match step
    case Request(h) => assert Counted(f.handlers) == Counted(g.handlers);
    case Handle(h) =>
      assert f.handlers == g.handlers[h := f.handlers[h]];
      CountChanges(g.handlers, h, f.handlers[h]);
    case CallStop(_) =>
    case Stop(_) =>
    case ShutOutside =>
  }

  /** Only a handler that was adding becomes counted, and only an open gate lets one add. */
  lemma HandleRegisters(g: Gate, h: nat)
    requires h in g.handlers
    ensures NoneRegisters(g.handlers) && g.shut ==> NoneRegisters(AfterHandle(g, h).handlers)
    ensures NoneRegisters(g.handlers) && Counted(g.handlers) == {} ==> Counted(AfterHandle(g, h).handlers) == {}
  {
    assert Counts(g.handlers[h]) ==> h in Counted(g.handlers);
    CountedAfter(g.handlers, h, AfterHandle(g, h).handlers[h]);
    assert AfterHandle(g, h).handlers == g.handlers[h := AfterHandle(g, h).handlers[h]];
  }

  lemma StepKeepsShut(g: Gate, step: Step, f: Gate)
    requires Inv(g) && Steps(g, step, f)
    ensures ShutGood(f)
  {
    match step
    case Request(_) =>
    case Handle(h) => HandleRegisters(g, h);
    case CallStop(_) =>
    case Stop(_) =>
    case ShutOutside =>
  }

  lemma StepKeepsInv(g: Gate, step: Step, f: Gate)
    requires Inv(g) && Steps(g, step, f)
    ensures Inv(f)
  {
    StepKeepsMutex(g, step, f);
    StepKeepsCount(g, step, f);
    StepKeepsShut(g, step, f);
  }

  /** A gate that was shut under the mutex stays shut, and once empty it stays empty. */
  lemma ShutForGood(g: Gate, step: Step, f: Gate, k: nat)
    requires Inv(g) && Steps(g, step, f) && HasShut(g.stoppers, k)
    ensures HasShut(f.stoppers, k) && (g.stoppers[k].Stopped? ==> f.stoppers[k].Stopped?)
    ensures f.shut && NoneRegisters(f.handlers)
    ensures Counted(g.handlers) == {} ==> Counted(f.handlers) == {}
  {
    StepKeepsShut(g, step, f);
    match step
    case Request(h) => assert Counted(f.handlers) == Counted(g.handlers);
    case Handle(h) => HandleRegisters(g, h);
    case CallStop(_) =>
    case Stop(_) =>
    case ShutOutside =>
  }

  /** Handlers and stoppers never block each other for good: whoever holds the mutex can go on,
      and when nobody does, everybody that is not through can. */
  lemma SomebodyCanGoOn(g: Gate)
    requires Inv(g)
    ensures match g.mutex
            case Some(HandlerHolds(h)) => Allowed(g, Handle(h))
            case Some(StopperHolds(k)) => Allowed(g, Stop(k))
            case None => (forall h <- g.handlers :: !g.handlers[h].Gone? ==> Allowed(g, Handle(h)))
                         && (forall k <- g.stoppers :: !g.stoppers[k].Stopped? ==> Allowed(g, Stop(k)))
  {
  }

  /** A handler that came to the check is served if and only if the gate is open then, and is
      counted from before it lets go of the mutex until it returns; a handler that is turned
      away is never counted. */
  lemma AdmittedIffOpen(g: Gate, h: nat)
    requires Inv(g) && h in g.handlers
    ensures var next := AfterHandle(g, h).handlers[h];
            && (g.handlers[h].Checking? ==> (next.Adding? <==> !g.shut) && (next.Refusing? <==> g.shut))
            && (g.handlers[h].Adding? ==> Counted(AfterHandle(g, h).handlers) == Counted(g.handlers) + {h})
            && (Counts(g.handlers[h]) && !g.handlers[h].Serving? ==> next.Serving?)
            && (g.handlers[h].Refusing? ==> next.Gone? && Counted(AfterHandle(g, h).handlers) == Counted(g.handlers))
  {
    match g.handlers[h]
    case Adding => CountedAfter(g.handlers, h, Added);
    case Refusing => CountedAfter(g.handlers, h, Gone);
    case Arriving =>
    case Checking =>
    case Added =>
    case Serving =>
    case Gone =>
  }
}
