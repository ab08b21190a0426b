/** The whole path of terminal output: harness, terminal, sessions, connections and one
    observed browser among any number of other clients. Every lock-held section, channel
    operation, message and browser callback is one step, and steps interleave freely. */
module Delivery {
  import opened Wrappers
  import opened Words
  import opened Terminal
  import opened Stream
  import opened FrameCodec
  import opened Session
  import opened Browser

  /** stream is everything the harness has written. connection names the session behind the
      browser's current socket and taken counts the binary messages it has delivered. base
      is the offset of the first byte on the browser's screen. */
  datatype System = System(
    stream: Bytes, terminal: State, sessions: map<nat, Session>,
    browser: View, connection: nat, taken: nat, base: nat)

  datatype Step =
    | WriteOutput(data: Bytes)
    | FinishOutput
    | AcceptOther(c: nat, cursor: Option<uint64>)
    | AcceptBrowser(c: nat)
    | Serve(c: nat, act: Act)
    | OtherAck(c: nat, offset: nat)
    | Detach(c: nat)
    | Dial
    | Receive
    | Render
    | Disconnect
    | Settle
    | Exit

  const START := System([], State([], 0, map[], false), map[], FRESH, 0, 0, 0)

  function ClientOf(t: State, c: nat): Option<Client> {
    if c in t.clients then Some(t.clients[c]) else None
  }

  /** The next message of the connection that the browser has not seen. */
  function Pending(x: Session, received: Option<nat>, taken: nat): Option<Message> {
    if received.None? then if x.announced then Some(Replay(x.start, x.gap)) else None
    else if taken < |x.frames| then Some(Binary(Encode(x.frames[taken])))
    else if x.ended.Some? then Some(End(x.ended.value))
    else None
  }

  ghost predicate Allowed(s: System, step: Step) {
    match step
    case WriteOutput(data) => !s.terminal.closed && |s.stream| + |data| < TWO_TO_THE_64
    case FinishOutput => true
    case AcceptOther(c, _) => c !in s.sessions
    case AcceptBrowser(c) => c !in s.sessions && s.browser.socket.Connecting?
    case Serve(c, act) => c in s.sessions && c in s.terminal.clients
                          && Enabled(s.sessions[c], s.terminal.clients[c].output, act)
    case OtherAck(c, _) => c in s.sessions && !s.sessions[c].mine
    case Detach(c) => c in s.sessions && s.sessions[c].phase.Finished?
    case Dial => true
    case Receive => s.browser.socket.Open? && s.connection in s.sessions
                    && Pending(s.sessions[s.connection], s.browser.socket.received, s.taken).Some?
    case Render => s.browser.queued != [] && (s.browser.socket.Open? ==> s.connection in s.sessions)
    case Disconnect => true
    case Settle => true
    case Exit => true
  }

  ghost function AfterWriteOutput(s: System, data: Bytes): System
    requires QueuesSafe(s.terminal)
  {
    var t := AfterWrite(s.terminal, data);
    s.(stream := s.stream + data,
       terminal := t,
       sessions := map c <- s.sessions ::
         s.sessions[c].(missed := s.sessions[c].missed || (data != [] && (c in t.clients ==> !t.clients[c].active))))
  }

  function AfterAccept(s: System, c: nat, mine: bool, history: Frame, gap: bool): System {
    s.(terminal := AfterAttach(s.terminal, c),
       sessions := s.sessions[c := Accepted(mine, history, gap)])
  }

  ghost function AfterAcceptOther(s: System, c: nat, cursor: Option<uint64>): System
    requires |s.terminal.history| <= s.terminal.nextOffset
  {
    var reply := AttachReply(s.terminal, cursor);
    if reply.Attached? then AfterAccept(s, c, false, reply.history, reply.gap) else s
  }

  /** The browser's dial reaches servePTY, which attaches it or answers with an error. */
  ghost function AfterAcceptBrowser(s: System, c: nat): System
    requires |s.terminal.history| <= s.terminal.nextOffset && s.browser.socket.Connecting?
  {
    var cursor := s.browser.socket.cursor;
    if cursor.Some? && cursor.value >= TWO_TO_THE_64 then s.(browser := AfterClose(s.browser))
    else
      var reply := AttachReply(s.terminal, cursor);
      if reply.Attached? then
        AfterAccept(s, c, true, reply.history, reply.gap)
          .(browser := s.browser.(socket := Open(None)), connection := c, taken := 0)
      else s.(browser := AfterClose(s.browser))
  }

  function AfterServe(s: System, c: nat, act: Act): System
    requires c in s.sessions && c in s.terminal.clients
    requires Enabled(s.sessions[c], s.terminal.clients[c].output, act)
  {
    var x, client := s.sessions[c], s.terminal.clients[c];
    s.(sessions := s.sessions[c := AfterAct(x, client.output, FinishedAt(s.terminal, x.window.sent), act)],
       terminal := s.terminal.(clients := s.terminal.clients[c := client.(output := QueueAfter(client.output, act))]))
  }

  function AfterReceive(s: System): System
    requires s.browser.socket.Open? && s.connection in s.sessions
    requires Pending(s.sessions[s.connection], s.browser.socket.received, s.taken).Some?
  {
    var message := Pending(s.sessions[s.connection], s.browser.socket.received, s.taken).value;
    s.(browser := AfterMessage(s.browser, message),
       taken := if message.Binary? then s.taken + 1 else s.taken,
       base := if message.Replay? && message.gap then message.offset else s.base)
  }

  ghost function AfterRendering(s: System): System
    requires Allowed(s, Render)
  {
    var ack := Acknowledgment(s.browser);
    s.(browser := AfterRender(s.browser),
       sessions := if ack.None? then s.sessions
                   else s.sessions[s.connection := AfterPush(s.sessions[s.connection], ack.value)])
  }

  ghost function After(s: System, step: Step): System
    requires Sound(s) && Allowed(s, step)
  {
    match step
    case WriteOutput(data) => AfterWriteOutput(s, data)
    case FinishOutput => s.(terminal := AfterFinish(s.terminal))
    case AcceptOther(c, cursor) => AfterAcceptOther(s, c, cursor)
    case AcceptBrowser(c) => AfterAcceptBrowser(s, c)
    case Serve(c, act) => AfterServe(s, c, act)
    case OtherAck(c, offset) => s.(sessions := s.sessions[c := AfterPush(s.sessions[c], offset)])
    case Detach(c) => s.(terminal := AfterDetach(s.terminal, c))
    case Dial => s.(browser := AfterConnect(s.browser))
    case Receive => AfterReceive(s)
    case Render => AfterRendering(s)
    case Disconnect => s.(browser := AfterClose(s.browser))
    case Settle => s.(browser := AfterSettle(s.browser))
    case Exit => s.(browser := s.browser.(exited := true))
  }

  /** No channel operation of the terminal can panic; every reachable state is sound. */
  ghost predicate Sound(s: System) {
    QueuesSafe(s.terminal) && |s.terminal.history| <= s.terminal.nextOffset
  }

  ghost predicate Steps(s: System, step: Step, t: System) {
    Sound(s) && Allowed(s, step) && t == After(s, step)
  }

  /** A run: any number of steps of any kind, from the start. */
  ghost predicate Run(states: seq<System>, steps: seq<Step>) {
    && |states| == |steps| + 1
    && states[0] == START
    && forall i, j {:trigger Steps(states[i], steps[i], states[j])} ::
      0 <= i < |steps| && j == i + 1 ==> Steps(states[i], steps[i], states[j])
  }

  // The invariant.

  ghost predicate TerminalGood(s: System) {
    QueuesSafe(s.terminal) && Records(s.terminal, s.stream) && s.terminal.clients.Keys <= s.sessions.Keys
  }

  ghost predicate SessionsGood(s: System) {
    forall c <- s.sessions :: Good(s.stream, s.terminal.closed, ClientOf(s.terminal, c), s.sessions[c])
  }

  /** The offset up to which the browser has handed bytes to its screen. */
  function Written(b: View): nat {
    Reach(b.queued, if b.rendered.Some? then b.rendered.value else 0)
  }

  /** What is on the screen and queued for it is one contiguous slice of the stream. */
  ghost predicate Shown(stream: Bytes, b: View, base: nat) {
    && b.stale == 0
    && (b.rendered.None? ==> b.screen == [] && b.queued == [] && base == 0)
    && (b.rendered.Some? ==>
          && base <= b.rendered.value <= |stream|
          && b.screen == stream[base..b.rendered.value]
          && Carries(stream, b.queued, b.rendered.value, Written(b)))
  }

  /** Where a session that was attached with the browser's cursor resumes. */
  ghost predicate Resumes(b: View, x: Session) {
    var cursor := if b.rendered.Some? then b.rendered.value else 0;
    && cursor <= x.start
    && (x.gap <==> cursor < x.start)
  }

  /** An open socket and the session at its other end. */
  ghost predicate Linked(b: View, x: Session, taken: nat) {
    && b.socket.Open? && x.mine
    && (b.socket.received.None? ==>
          && taken == 0 && b.queued == [] && !b.outputComplete
          && x.inflight == [] && x.acks == [] && x.window.acked == x.start
          && Resumes(b, x))
    && (b.socket.received.Some? ==>
          && b.rendered.Some? && b.socket.received.value == Written(b)
          && x.announced && taken <= |x.frames|
          && Written(b) == Reach(x.frames[..taken], x.start)
          && (x.phase.Sending? ==>
                && Ascending(x.acks + x.inflight, x.window.acked, b.rendered.value)
                && Latest(x.acks + x.inflight, x.window.acked) == b.rendered.value))
  }

  ghost predicate SocketGood(s: System) {
    match s.browser.socket
    case Idle => s.browser.queued == []
    case Connecting(cursor) =>
      cursor == s.browser.rendered && s.browser.queued == [] && !s.browser.outputComplete
    case Open(_) => s.connection in s.sessions && Linked(s.browser, s.sessions[s.connection], s.taken)
    case Closed => true
  }

  ghost predicate BrowserGood(s: System) {
    && Shown(s.stream, s.browser, s.base)
    && SocketGood(s)
    && (s.browser.outputComplete ==>
          s.terminal.closed && s.browser.rendered.Some? && Written(s.browser) == |s.stream|)
  }

  ghost predicate Inv(s: System) {
    TerminalGood(s) && SessionsGood(s) && BrowserGood(s)
  }

  lemma InvIsSound(s: System)
    requires Inv(s)
    ensures Sound(s)
  {
  }

  lemma StartIsGood()
    ensures Inv(START)
  {
  }

  lemma StepKeepsInv(s: System, step: Step, t: System)
    requires Inv(s) && Steps(s, step, t)
    ensures Inv(t)
  {
    match step
    case WriteOutput(data) => WriteOutputKeepsInv(s, data);
    case FinishOutput => FinishKeepsInv(s);
    case AcceptOther(c, cursor) => AcceptOtherKeepsInv(s, c, cursor);
    case AcceptBrowser(c) => AcceptBrowserKeepsInv(s, c);
    case Serve(c, act) => ServeKeepsInv(s, c, act);
    case OtherAck(c, offset) => OtherAckKeepsInv(s, c, offset);
    case Detach(c) => DetachKeepsInv(s, c);
    case Receive => ReceiveKeepsInv(s);
    case Render => RenderKeepsInv(s);
    case Dial => SocketKeepsInv(s, AfterConnect(s.browser));
    case Disconnect => SocketKeepsInv(s, AfterClose(s.browser));
    case Settle => SocketKeepsInv(s, AfterSettle(s.browser));
    case Exit => SocketKeepsInv(s, s.browser.(exited := true));
  }

  lemma SocketKeepsInv(s: System, b: View)
    requires Inv(s)
    requires b in {AfterConnect(s.browser), AfterClose(s.browser), AfterSettle(s.browser), s.browser.(exited := true)}
    ensures Inv(s.(browser := b))
  {
  }

  lemma WriteOutputKeepsInv(s: System, data: Bytes)
    requires Inv(s) && Allowed(s, WriteOutput(data))
    ensures Inv(AfterWriteOutput(s, data))
  {
    var t := AfterWriteOutput(s, data);
    SafeAfterWrite(s.terminal, data);
    WriteRecords(s.terminal, s.stream, data);
    assert t.sessions.Keys == s.sessions.Keys;
    forall c <- t.sessions
      ensures Good(t.stream, t.terminal.closed, ClientOf(t.terminal, c), t.sessions[c])
    {
      if c in s.terminal.clients {
        WriteKeepsGood(s.stream, s.terminal.clients[c], s.sessions[c], data, t.sessions[c].missed);
      } else {
        CarriesMonotone(s.stream, t.stream, s.sessions[c].frames, s.sessions[c].start,
                        Reach(s.sessions[c].frames, s.sessions[c].start));
      }
    }
    if s.browser.rendered.Some? {
      CarriesMonotone(s.stream, t.stream, s.browser.queued, s.browser.rendered.value, Written(s.browser));
    }
  }

  lemma FinishKeepsInv(s: System)
    requires Inv(s)
    ensures Inv(s.(terminal := AfterFinish(s.terminal)))
  {
    SafeAfterFinish(s.terminal);
  }

  lemma AcceptKeepsOthers(s: System, c: nat, mine: bool, history: Frame, gap: bool)
    requires TerminalGood(s) && SessionsGood(s) && c !in s.sessions && |s.terminal.clients| < MAX_CLIENTS
    requires Holds(s.stream, history) && history.End() == |s.stream|
    ensures TerminalGood(AfterAccept(s, c, mine, history, gap))
    ensures SessionsGood(AfterAccept(s, c, mine, history, gap))
  {
    AcceptedIsGood(s.stream, s.terminal.closed, mine, history, gap);
  }

  lemma AcceptOtherKeepsInv(s: System, c: nat, cursor: Option<uint64>)
    requires Inv(s) && Sound(s) && Allowed(s, AcceptOther(c, cursor))
    ensures Inv(AfterAcceptOther(s, c, cursor))
  {
    var reply := AttachReply(s.terminal, cursor);
    AttachFits(s, cursor);
    if reply.Attached? {
      VisitKeepsInv(s, c, reply.history, reply.gap);
    }
  }

  lemma AttachFits(s: System, cursor: Option<uint64>)
    requires Records(s.terminal, s.stream) && Sound(s)
    ensures var reply := AttachReply(s.terminal, cursor);
            reply.Attached? ==>
              && |s.terminal.clients| < MAX_CLIENTS
              && Holds(s.stream, reply.history) && reply.history.End() == |s.stream|
  {
    AttachReadsStream(s.terminal, s.stream, cursor);
  }

  lemma VisitKeepsInv(s: System, c: nat, history: Frame, gap: bool)
    requires Inv(s) && c !in s.sessions && |s.terminal.clients| < MAX_CLIENTS
    requires Holds(s.stream, history) && history.End() == |s.stream|
    ensures Inv(AfterAccept(s, c, false, history, gap))
  {
    AcceptKeepsOthers(s, c, false, history, gap);
  }

  lemma AcceptBrowserKeepsInv(s: System, c: nat)
    requires Inv(s) && Sound(s) && Allowed(s, AcceptBrowser(c))
    ensures Inv(AfterAcceptBrowser(s, c))
  {
    var cursor := s.browser.socket.cursor;
    if cursor.None? || cursor.value < TWO_TO_THE_64 {
      var reply := AttachReply(s.terminal, cursor);
      AttachFits(s, cursor);
      AttachResumes(s, cursor);
      if reply.Attached? {
        OpenKeepsInv(s, c, reply.history, reply.gap);
      }
    }
  }

  lemma OpenKeepsInv(s: System, c: nat, history: Frame, gap: bool)
    requires Inv(s) && Allowed(s, AcceptBrowser(c)) && |s.terminal.clients| < MAX_CLIENTS
    requires Holds(s.stream, history) && history.End() == |s.stream|
    requires Resumes(s.browser, Accepted(true, history, gap))
    ensures Inv(AfterAccept(s, c, true, history, gap)
                  .(browser := s.browser.(socket := Open(None)), connection := c, taken := 0))
  {
    AcceptKeepsOthers(s, c, true, history, gap);
    assert Linked(s.browser.(socket := Open(None)), Accepted(true, history, gap), 0);
  }

  lemma AttachResumes(s: System, cursor: Option<uint64>)
    requires Records(s.terminal, s.stream) && Sound(s) && cursor == s.browser.rendered
    ensures var reply := AttachReply(s.terminal, cursor);
            reply.Attached? ==> Resumes(s.browser, Accepted(true, reply.history, reply.gap))
  {
  }

  lemma ServeKeepsInv(s: System, c: nat, act: Act)
    requires Inv(s) && Allowed(s, Serve(c, act))
    ensures Inv(AfterServe(s, c, act))
  {
    var x, client, finished := s.sessions[c], s.terminal.clients[c], FinishedAt(s.terminal, s.sessions[c].window.sent);
    assert Good(s.stream, s.terminal.closed, Some(client), x);
    ActKeepsGood(s.stream, s.terminal, client, x, act);
    if s.browser.socket.Open? && c == s.connection {
      ActKeepsLinked(s.browser, x, s.taken, client.output, act, finished);
    }
    ReplaceKeepsInv(s, c, client.(output := QueueAfter(client.output, act)), AfterAct(x, client.output, finished, act));
  }

  lemma ReplaceKeepsInv(s: System, c: nat, client: Client, x: Session)
    requires Inv(s) && c in s.sessions && c in s.terminal.clients
    requires Good(s.stream, s.terminal.closed, Some(client), x)
    requires client.output.closed == !client.active && |client.output.frames| <= QUEUE_CAPACITY
    requires client.active == s.terminal.clients[c].active
    requires s.browser.socket.Open? && c == s.connection ==> Linked(s.browser, x, s.taken)
    ensures Inv(s.(sessions := s.sessions[c := x],
                   terminal := s.terminal.(clients := s.terminal.clients[c := client])))
  {
  }

  lemma ActKeepsLinked(b: View, x: Session, taken: nat, queue: Queue, act: Act, finished: bool)
    requires Linked(b, x, taken) && Enabled(x, queue, act) && (x.phase.Announcing? ==> !x.announced)
    ensures Linked(b, AfterAct(x, queue, finished, act), taken)
  {
    match act
    case HandleAck => HandleAckKeepsLinked(b, x, taken);
    case ReadAck => ReadAckKeepsLinked(b, x, taken);
    case Write(result) => WriteKeepsLinked(b, x, taken, result);
    case Announce(result) => AnnounceKeepsLinked(b, x, taken, result);
    case TakeChunk => ExtendKeepsLinked(b, x, taken, AfterTake(x, queue.frames[0]));
    case Drain(result) => ExtendKeepsLinked(b, x, taken, AfterDrain(x, finished, result));
    case Abort => ExtendKeepsLinked(b, x, taken, x.(phase := Finished));
  }

  lemma WriteKeepsLinked(b: View, x: Session, taken: nat, result: Result)
    requires Linked(b, x, taken) && x.held.Some?
    ensures Linked(b, Put(x, Wanted(x).value, result), taken)
  {
    ExtendKeepsLinked(b, x, taken, Put(x, Wanted(x).value, result));
  }

  lemma AnnounceKeepsLinked(b: View, x: Session, taken: nat, result: Result)
    requires Linked(b, x, taken) && x.phase.Announcing? && !x.announced
    ensures Linked(b, AfterAnnounce(x, result), taken)
  {
  }

  lemma ReadAckKeepsLinked(b: View, x: Session, taken: nat)
    requires Linked(b, x, taken) && x.phase.Sending? && x.inflight != []
    ensures Linked(b, AfterRead(x), taken)
  {
    var y := AfterRead(x);
    if y.phase.Sending? {
      assert y.acks + y.inflight == x.acks + x.inflight;
    }
  }

  lemma HandleAckKeepsLinked(b: View, x: Session, taken: nat)
    requires Linked(b, x, taken) && x.phase.Sending? && x.acks != []
    ensures Linked(b, AfterAck(x), taken)
  {
    var y, all := AfterAck(x), x.acks + x.inflight;
    assert all[0] == x.acks[0] && y.acks + y.inflight == all[1..];
  }

  lemma ExtendKeepsLinked(b: View, x: Session, taken: nat, y: Session)
    requires Linked(b, x, taken) && x.frames <= y.frames
    requires y.mine == x.mine && y.start == x.start && y.gap == x.gap && y.announced == x.announced
    requires y.acks == x.acks && y.inflight == x.inflight && y.window.acked == x.window.acked
    requires y.phase.Sending? ==> x.phase.Sending?
    ensures Linked(b, y, taken)
  {
  }

  lemma OtherAckKeepsInv(s: System, c: nat, offset: nat)
    requires Inv(s) && Allowed(s, OtherAck(c, offset))
    ensures Inv(s.(sessions := s.sessions[c := AfterPush(s.sessions[c], offset)]))
  {
  }

  lemma DetachKeepsInv(s: System, c: nat)
    requires Inv(s) && Allowed(s, Detach(c))
    ensures Inv(s.(terminal := AfterDetach(s.terminal, c)))
  {
    SafeAfterDetach(s.terminal, c);
  }

  lemma ReceiveKeepsInv(s: System)
    requires Inv(s) && Allowed(s, Receive)
    ensures Inv(AfterReceive(s))
  {
    var x := s.sessions[s.connection];
    match Pending(x, s.browser.socket.received, s.taken).value
    case Replay(_, _) => ReplayKeepsGood(s);
    case Binary(_) => BinaryKeepsGood(s);
    case End(_) =>
      assert x.frames[..s.taken] == x.frames;
  }

  lemma ReplayKeepsGood(s: System)
    requires Inv(s) && s.browser.socket == Open(None) && s.sessions[s.connection].announced
    ensures BrowserGood(AfterReceive(s))
  {
    var x, t := s.sessions[s.connection], AfterReceive(s);
    CarriesBounds(s.stream, x.frames, x.start, Reach(x.frames, x.start));
    assert x.frames[..0] == [];
    assert x.acks + x.inflight == [];
    assert Linked(t.browser, x, 0);
  }

  lemma BinaryKeepsGood(s: System)
    requires Inv(s) && s.browser.socket.Open? && s.browser.socket.received.Some?
    requires s.taken < |s.sessions[s.connection].frames|
    ensures BrowserGood(AfterReceive(s))
    ensures AfterReceive(s).browser.socket.Open?
  {
    var x, t := s.sessions[s.connection], AfterReceive(s);
    var frame := x.frames[s.taken];
    RoundTrip(frame, []);
    CarriesPrefix(s.stream, x.frames, x.start, Reach(x.frames, x.start), s.taken);
    CarriesAppend(s.stream, s.browser.queued, s.browser.rendered.value, frame);
    assert x.frames[..s.taken + 1] == x.frames[..s.taken] + [frame];
    assert Linked(t.browser, x, t.taken);
  }

  lemma RenderKeepsInv(s: System)
    requires Inv(s) && Allowed(s, Render)
    ensures Inv(AfterRendering(s))
  {
    var b, write := s.browser, s.browser.queued[0];
    RenderKeepsShown(s.stream, b, s.base);
    if b.socket.Open? {
      var x := s.sessions[s.connection];
      CarriesPrefix(s.stream, x.frames, x.start, Reach(x.frames, x.start), s.taken);
      PushKeepsGood(s.stream, s.terminal.closed, ClientOf(s.terminal, s.connection), x, write.End(), b.rendered.value);
      RenderKeepsLinked(b, x, s.taken);
    }
  }

  lemma RenderKeepsShown(stream: Bytes, b: View, base: nat)
    requires Shown(stream, b, base) && b.queued != []
    ensures Shown(stream, AfterRender(b), base)
    ensures b.rendered.Some? && Written(AfterRender(b)) == Written(b)
    ensures b.rendered.value <= b.queued[0].End() <= Written(b)
  {
    var write := b.queued[0];
    CarriesTail(stream, b.queued, b.rendered.value, Written(b));
    CarriesBounds(stream, b.queued[1..], write.End(), Written(b));
    assert stream[base..write.End()] == stream[base..b.rendered.value] + write.data;
  }

  lemma RenderKeepsLinked(b: View, x: Session, taken: nat)
    requires Linked(b, x, taken) && b.queued != [] && b.stale == 0
    requires Written(AfterRender(b)) == Written(b) && b.rendered.Some?
    requires b.rendered.value <= b.queued[0].End()
    ensures Linked(AfterRender(b), AfterPush(x, b.queued[0].End()), taken)
  {
    var y, end := AfterPush(x, b.queued[0].End()), b.queued[0].End();
    if x.phase.Sending? {
      AscendingAppend(x.acks + x.inflight, x.window.acked, b.rendered.value, end, end);
      assert y.acks + y.inflight == x.acks + x.inflight + [end];
    }
  }
}
