/** Output that waits for a page reaches it: a connection that was not cut short shows everything
    to its page, unless a chunk is in the way that is longer than the window
    (internal/wrapper/websocket.go, internal/server/web/src/terminal.js). */
module ConnectionProgress {
  import opened Wrappers
  import opened Words
  import opened Terminal
  import opened Stream
  import opened FlowControl
  import opened Session
  import opened Delivery
  import ExactlyOnce

  /** Nothing more is written, nobody else comes, and the page is not told of an exit. */
  predicate Helps(step: Step) {
    !step.WriteOutput? && !step.FinishOutput? && !step.AcceptOther? && !step.OtherAck? && !step.Exit?
  }

  ghost predicate HelpsTo(s: System, step: Step, t: System) {
    Helps(step) && Steps(s, step, t)
  }

  /** Such steps, and the states they lead through. */
  datatype Trace = Trace(begin: System, steps: seq<Step>, passed: seq<System>, at: System) {
    ghost predicate Valid() {
      && |passed| == |steps| + 1
      && passed[0] == begin && passed[|steps|] == at
      && forall i, j {:trigger HelpsTo(passed[i], steps[i], passed[j])} ::
        0 <= i < |steps| && j == i + 1 ==> HelpsTo(passed[i], steps[i], passed[j])
    }
  }

  /** The output stands as it did. */
  ghost predicate SameOutput(s: System, t: System) {
    && t.stream == s.stream && t.terminal.closed == s.terminal.closed
    && t.terminal.history == s.terminal.history && t.terminal.nextOffset == s.terminal.nextOffset
    && t.browser.exited == s.browser.exited
  }

  /** The trace u goes on where t stands. */
  ghost predicate GoesOn(t: Trace, u: Trace) {
    u.Valid() && u.begin == t.begin && Inv(u.at) && SameOutput(t.at, u.at)
  }

  lemma HelpKeepsOutput(s: System, step: Step)
    requires Sound(s) && Allowed(s, step) && Helps(step)
    ensures SameOutput(s, After(s, step))
  {
  }

  lemma Extend(t: Trace, step: Step, s: System) returns (u: Trace)
    requires t.Valid() && HelpsTo(t.at, step, s)
    ensures u.Valid() && u.begin == t.begin && u.at == s
  {
    u := Trace(t.begin, t.steps + [step], t.passed + [s], s);
    forall i, j | 0 <= i < |u.steps| && j == i + 1
      ensures HelpsTo(u.passed[i], u.steps[i], u.passed[j])
    {
      if i < |t.steps| {
        assert HelpsTo(t.passed[i], t.steps[i], t.passed[j]);
      }
    }
  }

  lemma HelpIsGood(s: System, step: Step)
    requires Inv(s) && Sound(s) && Allowed(s, step) && Helps(step)
    ensures HelpsTo(s, step, After(s, step)) && Inv(After(s, step)) && SameOutput(s, After(s, step))
  {
    StepKeepsInv(s, step, After(s, step));
    HelpKeepsOutput(s, step);
  }

  lemma Take(t: Trace, step: Step) returns (u: Trace)
    requires t.Valid() && Inv(t.at) && Sound(t.at) && Allowed(t.at, step) && Helps(step)
    ensures GoesOn(t, u) && u.at == After(t.at, step)
  {
    HelpIsGood(t.at, step);
    u := Extend(t, step, After(t.at, step));
  }

  /** All output the page can have is on its screen, and it knows whether there is more to come. */
  ghost predicate ShowsAll(s: System) {
    && s.browser.queued == []
    && s.base <= |s.stream| && s.browser.screen == s.stream[s.base..]
    && s.browser.rendered == Some(|s.stream|)
    && (s.browser.outputComplete <==> s.terminal.closed)
  }

  // One connection.

  /** No live chunk that waits for the reader is longer than the window. */
  predicate Fits(x: Session, queue: seq<Frame>) {
    && (x.held.Some? && !x.saved ==> |x.held.value.data| <= BUDGET)
    && (forall frame <- queue :: |frame.data| <= BUDGET)
  }

  /** The page's connection goes on, and nothing was or can be kept from it. */
  ghost predicate Follows(s: System) {
    && s.browser.socket.Open? && s.connection in s.sessions && s.connection in s.terminal.clients
    && !s.sessions[s.connection].phase.Finished? && !s.sessions[s.connection].missed
    && Fits(s.sessions[s.connection], s.terminal.clients[s.connection].output.frames)
  }

  /** The page has rendered everything it was sent. */
  ghost predicate KeepsUp(s: System) {
    && Follows(s) && s.sessions[s.connection].phase.Sending?
    && s.browser.socket.received.Some? && s.browser.queued == []
    && s.taken == |s.sessions[s.connection].frames|
  }

  /** Only the page and its connection have moved. */
  ghost predicate OnlyConnection(s: System, t: System) {
    && t.connection == s.connection && s.connection in t.sessions
    && (forall c <- s.sessions ::
          c in t.sessions &&
          (c != s.connection ==> t.sessions[c] == s.sessions[c] && ClientOf(t.terminal, c) == ClientOf(s.terminal, c)))
  }

  /** The page's own connection goes on by itself. */
  lemma Serves(t: Trace, act: Act) returns (u: Trace)
    requires t.Valid() && Inv(t.at) && t.at.connection in t.at.sessions && t.at.connection in t.at.terminal.clients
    requires !act.TakeChunk?
    requires Enabled(t.at.sessions[t.at.connection], t.at.terminal.clients[t.at.connection].output, act)
    ensures GoesOn(t, u) && OnlyConnection(t.at, u.at)
    ensures var s := t.at;
            var x, queue := s.sessions[s.connection], s.terminal.clients[s.connection].output;
            var y := AfterAct(x, queue, FinishedAt(s.terminal, x.window.sent), act);
            u.at == s.(sessions := s.sessions[s.connection := y])
  {
    ServeTakesNothing(t.at, act);
    u := Take(t, Serve(t.at.connection, act));
  }

  lemma ServeTakesNothing(s: System, act: Act)
    requires s.connection in s.sessions && s.connection in s.terminal.clients && !act.TakeChunk?
    requires Enabled(s.sessions[s.connection], s.terminal.clients[s.connection].output, act)
    ensures var x, queue := s.sessions[s.connection], s.terminal.clients[s.connection].output;
            var y := AfterAct(x, queue, FinishedAt(s.terminal, x.window.sent), act);
            AfterServe(s, s.connection, act) == s.(sessions := s.sessions[s.connection := y])
    ensures OnlyConnection(s, AfterServe(s, s.connection, act))
  {
    assert s.terminal.clients[s.connection := s.terminal.clients[s.connection]] == s.terminal.clients;
  }

  // The page catches up.

  function FramesAway(s: System): int
    requires s.connection in s.sessions
  {
    |s.sessions[s.connection].frames| - s.taken
  }

  lemma AnnouncesReplay(t: Trace) returns (u: Trace)
    requires t.Valid() && Inv(t.at) && Follows(t.at) && t.at.sessions[t.at.connection].phase.Announcing?
    ensures GoesOn(t, u) && Follows(u.at) && OnlyConnection(t.at, u.at)
    ensures u.at.sessions[u.at.connection].phase.Sending?
  {
    u := Serves(t, Announce(Sent));
  }

  lemma ReceivesReplay(t: Trace) returns (u: Trace)
    requires t.Valid() && Inv(t.at) && Follows(t.at) && t.at.sessions[t.at.connection].phase.Sending?
    requires t.at.browser.socket.received.None?
    ensures GoesOn(t, u) && Follows(u.at) && OnlyConnection(t.at, u.at)
    ensures u.at.sessions[u.at.connection].phase.Sending? && u.at.browser.socket.received.Some?
  {
    u := Take(t, Receive);
  }

  lemma ReceivesFrame(t: Trace) returns (u: Trace)
    requires t.Valid() && Inv(t.at) && Follows(t.at) && t.at.browser.socket.received.Some? && FramesAway(t.at) > 0
    ensures GoesOn(t, u) && Follows(u.at) && u.at.browser.socket.received.Some? && FramesAway(u.at) < FramesAway(t.at)
    ensures u.at.terminal == t.at.terminal && u.at.sessions == t.at.sessions && u.at.connection == t.at.connection
  {
    BinaryKeepsGood(t.at);
    u := Take(t, Receive);
  }

  lemma RendersFrame(t: Trace) returns (u: Trace)
    requires t.Valid() && Inv(t.at) && Follows(t.at) && t.at.browser.socket.received.Some? && t.at.browser.queued != []
    ensures GoesOn(t, u) && Follows(u.at) && u.at.browser.socket.received.Some? && OnlyConnection(t.at, u.at)
    ensures FramesAway(u.at) == FramesAway(t.at) && |u.at.browser.queued| < |t.at.browser.queued|
    ensures Ahead(t.at, u.at)
  {
    RenderIsLocal(t.at);
    u := Take(t, Render);
  }

  lemma RenderIsLocal(s: System)
    requires Follows(s) && s.browser.socket.received.Some? && s.browser.queued != []
    ensures var t := AfterRendering(s);
            && Follows(t) && t.browser.socket.received.Some? && OnlyConnection(s, t)
            && FramesAway(t) == FramesAway(s) && |t.browser.queued| < |s.browser.queued| && Ahead(s, t)
  {
  }

  /** What the connection still has to send is the same. */
  ghost predicate Ahead(s: System, t: System)
    requires s.connection in s.sessions && t.connection in t.sessions
  {
    && t.terminal == s.terminal
    && t.sessions[t.connection].held == s.sessions[s.connection].held
    && t.sessions[t.connection].phase == s.sessions[s.connection].phase
  }

  lemma {:induction false} CatchesUp(t: Trace) returns (u: Trace)
    requires t.Valid() && Inv(t.at) && Follows(t.at)
    requires t.at.sessions[t.at.connection].phase.Sending? && t.at.browser.socket.received.Some?
    ensures GoesOn(t, u) && KeepsUp(u.at) && OnlyConnection(t.at, u.at) && Ahead(t.at, u.at)
    decreases FramesAway(t.at), |t.at.browser.queued|
  {
    u := t;
    if FramesAway(t.at) > 0 {
      var v := ReceivesFrame(t);
      u := CatchesUp(v);
    } else if t.at.browser.queued != [] {
      var v := RendersFrame(t);
      u := CatchesUp(v);
    }
  }

  lemma Begins(t: Trace) returns (u: Trace)
    requires t.Valid() && Inv(t.at) && Follows(t.at)
    ensures GoesOn(t, u) && Follows(u.at) && OnlyConnection(t.at, u.at)
    ensures u.at.sessions[u.at.connection].phase.Sending? && u.at.browser.socket.received.Some?
  {
    u := t;
    if t.at.sessions[t.at.connection].phase.Announcing? {
      u := AnnouncesReplay(t);
    }
    if u.at.browser.socket.received.None? {
      u := ReceivesReplay(u);
    }
  }

  // The sender goes on.

  /** Acknowledgments on their way, those in the network counted twice. */
  function AcksAway(x: Session): nat {
    |x.acks| + 2 * |x.inflight|
  }

  function HeldSize(x: Session): nat {
    if x.held.Some? then |x.held.value.data| + 1 else 0
  }

  /** The chunks and bytes that the connection is still to send. */
  function Waiting(s: System): nat
    requires s.connection in s.terminal.clients
  {
    |s.terminal.clients[s.connection].output.frames|
  }

  /** A sender that waits has an acknowledgment to wait for. */
  lemma WaitsForAcks(s: System)
    requires Inv(s) && KeepsUp(s) && MustWait(s.sessions[s.connection])
    ensures s.sessions[s.connection].acks != [] || s.sessions[s.connection].inflight != []
  {
    var x := s.sessions[s.connection];
    assert Good(s.stream, s.terminal.closed, ClientOf(s.terminal, s.connection), x);
    if x.acks == [] && x.inflight == [] {
      ExactlyOnce.CaughtUpIsAcknowledged(s.browser, x, s.taken);
      ExactlyOnce.FrameFits(s.stream, x, s.terminal.clients[s.connection]);
    }
  }

  lemma ReadsAck(t: Trace) returns (u: Trace)
    requires t.Valid() && Inv(t.at) && KeepsUp(t.at)
    requires var x := t.at.sessions[t.at.connection]; x.acks == [] && x.inflight != []
    ensures GoesOn(t, u) && KeepsUp(u.at) && OnlyConnection(t.at, u.at) && Ahead(t.at, u.at)
    ensures AcksAway(u.at.sessions[u.at.connection]) < AcksAway(t.at.sessions[t.at.connection])
  {
    var x := t.at.sessions[t.at.connection];
    assert Good(t.at.stream, t.at.terminal.closed, ClientOf(t.at.terminal, t.at.connection), x);
    AscendingHead(x.acks + x.inflight, x.window.acked, x.window.sent);
    assert (x.acks + x.inflight)[0] == x.inflight[0];
    u := Serves(t, ReadAck);
  }

  lemma HandlesAck(t: Trace) returns (u: Trace)
    requires t.Valid() && Inv(t.at) && KeepsUp(t.at)
    requires var x := t.at.sessions[t.at.connection]; x.acks != [] && MustWait(x)
    ensures GoesOn(t, u) && KeepsUp(u.at) && OnlyConnection(t.at, u.at) && Ahead(t.at, u.at)
    ensures AcksAway(u.at.sessions[u.at.connection]) < AcksAway(t.at.sessions[t.at.connection])
  {
    var x := t.at.sessions[t.at.connection];
    assert Good(t.at.stream, t.at.terminal.closed, ClientOf(t.at.terminal, t.at.connection), x);
    OwnAckAccepted(t.at.terminal.clients[t.at.connection], x);
    u := Serves(t, HandleAck);
  }

  lemma SendsPiece(t: Trace) returns (u: Trace)
    requires t.Valid() && Inv(t.at) && KeepsUp(t.at)
    requires var x := t.at.sessions[t.at.connection]; x.held.Some? && !MustWait(x)
    ensures GoesOn(t, u) && KeepsUp(u.at) && OnlyConnection(t.at, u.at) && u.at.terminal == t.at.terminal
    ensures HeldSize(u.at.sessions[u.at.connection]) < HeldSize(t.at.sessions[t.at.connection])
  {
    var v := Serves(t, Write(Sent));
    u := CatchesUp(v);
  }

  lemma TakesChunk(t: Trace) returns (u: Trace)
    requires t.Valid() && Inv(t.at) && KeepsUp(t.at)
    requires t.at.sessions[t.at.connection].held.None? && Waiting(t.at) > 0
    ensures GoesOn(t, u) && KeepsUp(u.at) && OnlyConnection(t.at, u.at) && Waiting(u.at) < Waiting(t.at)
  {
    TakeIsLocal(t.at);
    u := Take(t, Serve(t.at.connection, TakeChunk));
  }

  lemma TakeIsLocal(s: System)
    requires KeepsUp(s) && s.sessions[s.connection].held.None? && Waiting(s) > 0
    ensures var t := AfterServe(s, s.connection, TakeChunk);
            KeepsUp(t) && OnlyConnection(s, t) && Waiting(t) < Waiting(s)
  {
    var queue := s.terminal.clients[s.connection].output.frames;
    assert queue[0] in queue && forall frame <- queue[1..] :: frame in queue;
  }

  /** With something in hand, the sender comes closer to having sent it. */
  lemma Advances(t: Trace) returns (u: Trace)
    requires t.Valid() && Inv(t.at) && KeepsUp(t.at) && t.at.sessions[t.at.connection].held.Some?
    ensures GoesOn(t, u) && KeepsUp(u.at) && OnlyConnection(t.at, u.at) && u.at.terminal == t.at.terminal
    ensures var x, y := t.at.sessions[t.at.connection], u.at.sessions[u.at.connection];
            HeldSize(y) < HeldSize(x) || (HeldSize(y) == HeldSize(x) && AcksAway(y) < AcksAway(x))
  {
    var x := t.at.sessions[t.at.connection];
    if !MustWait(x) {
      u := SendsPiece(t);
    } else if x.acks != [] {
      u := HandlesAck(t);
    } else {
      WaitsForAcks(t.at);
      u := ReadsAck(t);
    }
  }

  lemma {:induction false} SendsAll(t: Trace) returns (u: Trace)
    requires t.Valid() && Inv(t.at) && KeepsUp(t.at)
    ensures GoesOn(t, u) && KeepsUp(u.at) && OnlyConnection(t.at, u.at)
    ensures u.at.sessions[u.at.connection].held.None? && Waiting(u.at) == 0
    decreases Waiting(t.at), HeldSize(t.at.sessions[t.at.connection]), AcksAway(t.at.sessions[t.at.connection])
  {
    u := t;
    if t.at.sessions[t.at.connection].held.Some? {
      var v := Advances(t);
      u := SendsAll(v);
    } else if Waiting(t.at) > 0 {
      var v := TakesChunk(t);
      u := SendsAll(v);
    }
  }

  // The end.

  lemma AllSentIsAllShown(s: System)
    requires Inv(s) && KeepsUp(s) && s.sessions[s.connection].held.None? && Waiting(s) == 0
    ensures s.sessions[s.connection].window.sent == |s.stream|
    ensures s.browser.rendered == s.browser.socket.received == Some(|s.stream|)
    ensures s.base <= |s.stream| && s.browser.screen == s.stream[s.base..]
  {
    var x := s.sessions[s.connection];
    assert Good(s.stream, s.terminal.closed, ClientOf(s.terminal, s.connection), x);
    assert Unsent(x, []) == [];
    assert x.frames[..s.taken] == x.frames;
    assert s.stream[s.base..] == s.stream[s.base..|s.stream|];
  }

  lemma Ends(t: Trace) returns (u: Trace)
    requires t.Valid() && Inv(t.at) && KeepsUp(t.at) && t.at.terminal.closed
    requires t.at.sessions[t.at.connection].held.None? && Waiting(t.at) == 0
    requires t.at.sessions[t.at.connection].window.sent == |t.at.stream|
    ensures GoesOn(t, u) && OnlyConnection(t.at, u.at) && u.at.browser == t.at.browser && u.at.taken == t.at.taken
    ensures u.at.base == t.at.base
    ensures var x, y := t.at.sessions[t.at.connection], u.at.sessions[u.at.connection];
            y.frames == x.frames && y.announced && y.ended == Some(|t.at.stream|)
  {
    u := Serves(t, Drain(Sent));
  }

  lemma IsToldOfEnd(t: Trace) returns (u: Trace)
    requires t.Valid() && Inv(t.at) && KeepsUp(t.at) && t.at.terminal.closed
    requires t.at.sessions[t.at.connection].held.None? && Waiting(t.at) == 0
    requires t.at.sessions[t.at.connection].window.sent == |t.at.stream|
    requires t.at.browser.socket.received == Some(|t.at.stream|)
    ensures GoesOn(t, u) && OnlyConnection(t.at, u.at)
    ensures u.at.browser == t.at.browser.(outputComplete := true) && u.at.base == t.at.base
  {
    var ended := Ends(t);
    u := ReceivesEnd(ended);
  }

  lemma ReceivesEnd(t: Trace) returns (u: Trace)
    requires t.Valid() && Inv(t.at) && t.at.connection in t.at.sessions && t.at.browser.socket.Open?
    requires t.at.browser.socket.received == Some(|t.at.stream|)
    requires var x := t.at.sessions[t.at.connection]; t.at.taken == |x.frames| && x.ended == Some(|t.at.stream|)
    ensures GoesOn(t, u) && OnlyConnection(t.at, u.at)
    ensures u.at.browser == t.at.browser.(outputComplete := true) && u.at.base == t.at.base
  {
    u := Take(t, Receive);
  }

  lemma LearnsEnd(t: Trace) returns (u: Trace)
    requires t.Valid() && Inv(t.at) && KeepsUp(t.at)
    requires t.at.sessions[t.at.connection].held.None? && Waiting(t.at) == 0
    ensures GoesOn(t, u) && OnlyConnection(t.at, u.at) && ShowsAll(u.at) && u.at.browser.socket.Open?
  {
    AllSentIsAllShown(t.at);
    if t.at.terminal.closed {
      u := IsToldOfEnd(t);
    } else {
      u := t;
    }
  }

  /** A connection that goes on shows the page everything. */
  lemma FollowerShowsAll(t: Trace) returns (u: Trace)
    requires t.Valid() && Inv(t.at) && Follows(t.at)
    ensures GoesOn(t, u) && OnlyConnection(t.at, u.at) && ShowsAll(u.at) && u.at.browser.socket.Open?
  {
    var begun := Begins(t);
    var level := CatchesUp(begun);
    var sent := SendsAll(level);
    u := LearnsEnd(sent);
  }

  // A chunk that is too long.

  /** The chunk is in the sender's hand or in its queue. */
  predicate Waits(x: Session, queue: seq<Frame>, chunk: Frame) {
    (x.held == Some(chunk) && !x.saved) || chunk in queue
  }

  /** The connection has not got past the beginning of the chunk, and never will without it. */
  ghost predicate Behind(s: System, c: nat, chunk: Frame) {
    && c in s.sessions && Reach(s.sessions[c].frames, s.sessions[c].start) <= chunk.offset
    && (s.sessions[c].phase.Finished? ||
        (c in s.terminal.clients && Waits(s.sessions[c], s.terminal.clients[c].output.frames, chunk)))
  }

  lemma QueuedIsAhead(stream: Bytes, sent: nat, whole: Frame, queue: seq<Frame>, chunk: Frame)
    requires Carries(stream, [whole] + queue, sent, Reach([whole] + queue, sent)) && chunk in queue
    ensures whole.offset == sent && whole.End() <= chunk.offset
  {
    var all := [whole] + queue;
    CarriesTail(stream, all, sent, Reach(all, sent));
    assert all[1..] == queue;
    var k :| 0 <= k < |queue| && queue[k] == chunk;
    CarriesPrefix(stream, queue, whole.End(), Reach(all, sent), k);
    CarriesBounds(stream, queue[..k], whole.End(), Reach(queue[..k], whole.End()));
  }

  lemma HeldIsStuck(stream: Bytes, x: Session, client: Client, chunk: Frame)
    requires |stream| < TWO_TO_THE_64 && x.window.Safe() && Feeding(stream, x, client)
    requires x.held == Some(chunk) && !x.saved && |chunk.data| > BUDGET
    ensures MustWait(x)
  {
    WantedFits(stream, x, client.output.frames);
    NoWrap(x.window, chunk.End());
  }

  lemma WriteStaysBehind(stream: Bytes, client: Client, x: Session, result: Result, chunk: Frame)
    requires |stream| < TWO_TO_THE_64 && x.window.Safe() && Feeding(stream, x, client)
    requires Enabled(x, client.output, Write(result)) && Waits(x, client.output.frames, chunk)
    requires Reach(x.frames, x.start) <= chunk.offset && |chunk.data| > BUDGET
    ensures var y := Put(x, Wanted(x).value, result);
            Reach(y.frames, y.start) <= chunk.offset && chunk in client.output.frames
  {
    if x.held == Some(chunk) && !x.saved {
      HeldIsStuck(stream, x, client, chunk);
    } else {
      WantedFits(stream, x, client.output.frames);
      QueuedIsAhead(stream, x.window.sent, x.held.value, client.output.frames, chunk);
    }
  }

  lemma TakeStaysBehind(x: Session, queue: seq<Frame>, chunk: Frame)
    requires x.held.None? && queue != [] && Waits(x, queue, chunk)
    ensures Waits(AfterTake(x, queue[0]), queue[1..], chunk)
  {
    if chunk != queue[0] {
      assert queue == [queue[0]] + queue[1..];
    }
  }

  ghost predicate SendsNothing(x: Session, y: Session) {
    && y.frames == x.frames && y.start == x.start && y.held == x.held && y.saved == x.saved
    && (x.phase.Finished? ==> y.phase.Finished?)
  }

  /** Acknowledgments and announcements send nothing. */
  lemma OtherActsSendNothing(x: Session, queue: Queue, act: Act, finished: bool)
    requires Enabled(x, queue, act) && !act.Write? && !act.TakeChunk?
    ensures SendsNothing(x, AfterAct(x, queue, finished, act))
  {
    match act
    case Announce(result) => assert SendsNothing(x, AfterAnnounce(x, result));
    case HandleAck => assert SendsNothing(x, AfterAck(x));
    case Drain(result) => assert SendsNothing(x, AfterDrain(x, finished, result));
    case ReadAck => assert SendsNothing(x, AfterRead(x));
    case Abort => assert SendsNothing(x, x.(phase := Finished));
  }

  lemma ActStaysBehind(stream: Bytes, client: Client, x: Session, act: Act, finished: bool, chunk: Frame)
    requires |stream| < TWO_TO_THE_64 && x.window.Safe() && (!x.phase.Finished? ==> Feeding(stream, x, client))
    requires Enabled(x, client.output, act)
    requires Reach(x.frames, x.start) <= chunk.offset && |chunk.data| > BUDGET
    requires x.phase.Finished? || Waits(x, client.output.frames, chunk)
    ensures var y := AfterAct(x, client.output, finished, act);
            && Reach(y.frames, y.start) <= chunk.offset
            && (y.phase.Finished? || Waits(y, QueueAfter(client.output, act).frames, chunk))
  {
    if act.Write? {
      WriteStaysBehind(stream, client, x, act.result, chunk);
    } else if act.TakeChunk? {
      TakeStaysBehind(x, client.output.frames, chunk);
    } else {
      OtherActsSendNothing(x, client.output, act, finished);
    }
  }

  lemma ServeStaysBehind(s: System, c: nat, act: Act, chunk: Frame)
    requires Inv(s) && Allowed(s, Serve(c, act)) && Behind(s, c, chunk) && |chunk.data| > BUDGET
    ensures Behind(AfterServe(s, c, act), c, chunk)
  {
    var x, client := s.sessions[c], s.terminal.clients[c];
    assert Good(s.stream, s.terminal.closed, ClientOf(s.terminal, c), x);
    ActStaysBehind(s.stream, client, x, act, FinishedAt(s.terminal, x.window.sent), chunk);
  }

  lemma WriteStays(s: System, data: Bytes, c: nat, chunk: Frame)
    requires Inv(s) && Sound(s) && Behind(s, c, chunk)
    ensures Behind(AfterWriteOutput(s, data), c, chunk)
  {
    WriteReachesReaders(s.terminal, data, c);
  }

  lemma OthersStayBehind(s: System, step: Step, c: nat, chunk: Frame)
    requires Sound(s) && Allowed(s, step) && !step.WriteOutput? && !step.Serve? && Behind(s, c, chunk)
    ensures Behind(After(s, step), c, chunk)
  {
    match step
    case FinishOutput =>
    case AcceptOther(_, _) =>
    case AcceptBrowser(_) =>
    case OtherAck(_, _) =>
    case Detach(_) =>
    case Dial =>
    case Receive =>
    case Render =>
    case Disconnect =>
    case Settle =>
    case Exit =>
  }

  lemma StepStaysBehind(s: System, step: Step, t: System, c: nat, chunk: Frame)
    requires Inv(s) && Steps(s, step, t) && Behind(s, c, chunk) && |chunk.data| > BUDGET
    ensures Behind(t, c, chunk)
  {
    if step.WriteOutput? {
      WriteStays(s, step.data, c, chunk);
    } else if !step.Serve? {
      OthersStayBehind(s, step, c, chunk);
    } else if step.c == c {
      ServeStaysBehind(s, c, step.act, chunk);
    }
  }

  /** A chunk of more than 128 KiB is never sent to a reader that it waits for, and nothing after
      it is, whatever happens. */
  lemma {:induction false} LongChunkIsNeverSent(states: seq<System>, steps: seq<Step>, m: nat, n: nat, c: nat,
                                               chunk: Frame)
    requires Run(states, steps) && m <= n < |states| && c in states[m].sessions && c in states[m].terminal.clients
    requires !states[m].sessions[c].phase.Finished? && |chunk.data| > 131072
    requires Waits(states[m].sessions[c], states[m].terminal.clients[c].output.frames, chunk)
    ensures Behind(states[n], c, chunk)
    decreases n
  {
    if m < n {
      LongChunkIsNeverSent(states, steps, m, n - 1, c, chunk);
      ExactlyOnce.AlwaysGood(states, steps, n - 1);
      assert Steps(states[n - 1], steps[n - 1], states[n]);
      StepStaysBehind(states[n - 1], steps[n - 1], states[n], c, chunk);
    } else {
      ExactlyOnce.AlwaysGood(states, steps, m);
      WaitingIsBehind(states[m], c, chunk);
    }
  }

  lemma WaitingIsBehind(s: System, c: nat, chunk: Frame)
    requires Inv(s) && c in s.sessions && c in s.terminal.clients && !s.sessions[c].phase.Finished?
    requires Waits(s.sessions[c], s.terminal.clients[c].output.frames, chunk)
    ensures Behind(s, c, chunk) && chunk.End() <= |s.stream|
  {
    var x, queue := s.sessions[c], s.terminal.clients[c].output.frames;
    assert Good(s.stream, s.terminal.closed, ClientOf(s.terminal, c), x);
    var all := Unsent(x, queue);
    assert chunk in all;
    var k :| 0 <= k < |all| && all[k] == chunk;
    CarriesPrefix(s.stream, all, x.window.sent, Reach(all, x.window.sent), k);
    CarriesBounds(s.stream, all[..k], x.window.sent, Reach(all[..k], x.window.sent));
  }

  // Exactly when.

  /** The trace starts here and ends, on the same connection, with everything on the screen. */
  ghost predicate Arrives(s: System, t: Trace) {
    && t.Valid() && t.begin == s
    && t.at.connection == s.connection && t.at.browser.socket.Open? && ShowsAll(t.at)
  }

  lemma StepOf(t: Trace, k: nat)
    requires t.Valid() && k < |t.steps|
    ensures HelpsTo(t.passed[k], t.steps[k], t.passed[k + 1])
  {
  }

  lemma TraceKeepsBehind(t: Trace, k: nat, c: nat, chunk: Frame)
    requires t.Valid() && k < |t.steps| && Inv(t.passed[k]) && Behind(t.passed[k], c, chunk)
    requires |chunk.data| > BUDGET
    ensures Inv(t.passed[k + 1]) && Behind(t.passed[k + 1], c, chunk)
    ensures t.passed[k + 1].stream == t.passed[k].stream
  {
    StepOf(t, k);
    HelpIsGood(t.passed[k], t.steps[k]);
    StepStaysBehind(t.passed[k], t.steps[k], t.passed[k + 1], c, chunk);
  }

  lemma {:induction false} TraceStaysBehind(t: Trace, k: nat, c: nat, chunk: Frame)
    requires t.Valid() && k <= |t.steps| && Inv(t.begin) && Behind(t.begin, c, chunk) && |chunk.data| > BUDGET
    ensures Inv(t.passed[k]) && Behind(t.passed[k], c, chunk) && t.passed[k].stream == t.begin.stream
    decreases k
  {
    if k > 0 {
      TraceStaysBehind(t, k - 1, c, chunk);
      TraceKeepsBehind(t, k - 1, c, chunk);
    }
  }

  /** A page on a connection that has not got past the chunk does not show it. */
  lemma BehindIsNotShown(s: System, chunk: Frame)
    requires Inv(s) && s.browser.socket.Open? && Behind(s, s.connection, chunk)
    requires s.browser.queued == [] && chunk.offset < |s.stream|
    ensures s.browser.rendered != Some(|s.stream|)
  {
    var x := s.sessions[s.connection];
    assert Good(s.stream, s.terminal.closed, ClientOf(s.terminal, s.connection), x);
    CarriesBounds(s.stream, x.frames, x.start, Reach(x.frames, x.start));
    if s.browser.socket.received.Some? {
      CarriesPrefix(s.stream, x.frames, x.start, Reach(x.frames, x.start), s.taken);
    }
  }

  lemma LongChunkBlocks(s: System, t: Trace, chunk: Frame)
    requires Inv(s) && s.connection in s.sessions && s.connection in s.terminal.clients
    requires !s.sessions[s.connection].phase.Finished? && |chunk.data| > BUDGET
    requires Waits(s.sessions[s.connection], s.terminal.clients[s.connection].output.frames, chunk)
    ensures !Arrives(s, t)
  {
    if Arrives(s, t) {
      WaitingIsBehind(s, s.connection, chunk);
      TraceStaysBehind(t, |t.steps|, s.connection, chunk);
      BehindIsNotShown(t.at, chunk);
    }
  }

  /** A connection of the page that goes on and missed nothing can bring all output to the screen
      if and only if no live chunk that waits for it is longer than 128 KiB. Nobody but the page,
      the network and the connection has to do anything. */
  lemma ArrivesIffChunksFit(states: seq<System>, steps: seq<Step>, i: nat)
    requires Run(states, steps) && i < |states| && states[i].browser.socket.Open?
    ensures states[i].connection in states[i].sessions
    ensures var s, x := states[i], states[i].sessions[states[i].connection];
            !x.phase.Finished? && !x.missed ==>
              && s.connection in s.terminal.clients
              && ((exists t :: Arrives(s, t)) <==> Fits(x, s.terminal.clients[s.connection].output.frames))
              && ((exists t :: Arrives(s, t)) <==> (exists t :: Arrives(s, t) && OnlyConnection(s, t.at)))
  {
    ExactlyOnce.AlwaysGood(states, steps, i);
    var s, x := states[i], states[i].sessions[states[i].connection];
    assert Good(s.stream, s.terminal.closed, ClientOf(s.terminal, s.connection), x);
    if !x.phase.Finished? && !x.missed {
      var queue := s.terminal.clients[s.connection].output.frames;
      if Fits(x, queue) {
        var t := FollowerShowsAll(Trace(s, [], [s], s));
        assert Arrives(s, t) && OnlyConnection(s, t.at);
      } else {
        var chunk := TooLong(x, queue);
        forall t
          ensures !Arrives(s, t)
        {
          LongChunkBlocks(s, t, chunk);
        }
      }
    }
  }

  lemma TooLong(x: Session, queue: seq<Frame>) returns (chunk: Frame)
    requires !Fits(x, queue)
    ensures Waits(x, queue, chunk) && |chunk.data| > BUDGET
  {
    if x.held.Some? && !x.saved && |x.held.value.data| > BUDGET {
      chunk := x.held.value;
    } else {
      chunk :| chunk in queue && |chunk.data| > BUDGET;
    }
  }
}
