/** One attachment from accept to detach: the atomic steps its goroutines take
    (internal/wrapper/websocket.go) and what each of them keeps. */
module Session {
  import opened Wrappers
  import opened Words
  import opened Terminal
  import opened Stream
  import opened FlowControl

  /** Announcing: the replay message is still to be sent. Finished: sendOutput has returned. */
  datatype Phase = Announcing | Sending | Finished

  /** A failed write may still have reached the browser. */
  datatype Result = Sent | Lost(delivered: bool)

  /** held is what sendOutput has taken and not yet sent: saved output, sent in pieces, or
      one chunk from its queue. Acknowledgments travel from inflight, the network, to acks, the
      channel. The remaining fields record what the connection was given: the replay message,
      binary frames, the end message. mine marks the connections of the observed browser and
      missed records that some non-empty chunk was never queued here. */
  datatype Session = Session(
    mine: bool, start: uint64, gap: bool,
    window: Window, held: Option<Frame>, saved: bool,
    inflight: seq<nat>, acks: seq<nat>,
    announced: bool, frames: seq<Frame>, ended: Option<uint64>,
    phase: Phase, missed: bool)

  datatype Act =
    | Announce(result: Result)
    | Write(result: Result)
    | TakeChunk
    | HandleAck
    | Drain(result: Result)
    | ReadAck
    | Abort

  const ACK_CAPACITY: nat := 16

  function Held(frame: Frame): Option<Frame> {
    if frame.data == [] then None else Some(frame)
  }

  function Accepted(mine: bool, history: Frame, gap: bool): Session {
    Session(mine, history.offset, gap, Window(history.offset, history.offset), Held(history), true,
            [], [], false, [], None, Announcing, false)
  }

  /** The frame sendOutput is about to write: a bounded piece of saved output, or a chunk. */
  function Wanted(x: Session): Option<Frame> {
    if x.saved && x.held.Some? then Some(Piece(x.held.value)) else x.held
  }

  predicate MustWait(x: Session) {
    Wanted(x).Some? && x.window.Blocked(Add64(Wanted(x).value.offset, |Wanted(x).value.data|))
  }

  function Put(x: Session, frame: Frame, result: Result): Session
    requires x.held.Some?
  {
    match result
    case Sent =>
      x.(frames := x.frames + [frame],
         window := Window(x.window.acked, Add64(frame.offset, |frame.data|)),
         held := if x.saved then Held(AfterPiece(x.held.value)) else None)
    case Lost(delivered) =>
      x.(frames := if delivered then x.frames + [frame] else x.frames, phase := Finished)
  }

  /** Which acts the goroutines of a session can take; finished is the answer of finishedAt. */
  predicate Enabled(x: Session, queue: Queue, act: Act) {
    match act
    case Announce(_) => x.phase.Announcing?
    case Write(_) => x.phase.Sending? && x.held.Some? && !MustWait(x)
    case TakeChunk => x.phase.Sending? && x.held.None? && queue.frames != []
    case HandleAck => x.phase.Sending? && (x.held.None? || MustWait(x)) && x.acks != []
    case Drain(_) => x.phase.Sending? && x.held.None? && queue.frames == [] && queue.closed
    case ReadAck => x.phase.Sending? && x.inflight != [] && |x.acks| < ACK_CAPACITY
    case Abort => !x.phase.Finished?
  }

  function AfterAnnounce(x: Session, result: Result): Session {
    x.(announced := result != Lost(false), phase := if result.Sent? then Sending else Finished)
  }

  function AfterTake(x: Session, chunk: Frame): Session {
    x.(held := Some(chunk), saved := false)
  }

  function AfterAck(x: Session): Session
    requires x.acks != []
  {
    var reply := x.window.Acknowledge(x.acks[0]);
    var y := x.(acks := x.acks[1..]);
    if reply.Some? then y.(window := reply.value) else y.(phase := Finished)
  }

  /** Only a terminal that has finished at what was sent is announced as complete. */
  function AfterDrain(x: Session, finished: bool, result: Result): Session {
    x.(ended := if finished && result != Lost(false) then Some(x.window.sent) else None, phase := Finished)
  }

  /** A number that is no uint64 ends the connection. */
  function AfterRead(x: Session): Session
    requires x.inflight != []
  {
    if x.inflight[0] >= TWO_TO_THE_64 then x.(phase := Finished)
    else x.(acks := x.acks + [x.inflight[0]], inflight := x.inflight[1..])
  }

  function AfterAct(x: Session, queue: Queue, finished: bool, act: Act): Session
    requires Enabled(x, queue, act)
  {
    match act
    case Announce(result) => AfterAnnounce(x, result)
    case Write(result) => Put(x, Wanted(x).value, result)
    case TakeChunk => AfterTake(x, queue.frames[0])
    case HandleAck => AfterAck(x)
    case Drain(result) => AfterDrain(x, finished, result)
    case ReadAck => AfterRead(x)
    case Abort => x.(phase := Finished)
  }

  function QueueAfter(queue: Queue, act: Act): Queue {
    if act.TakeChunk? && queue.frames != [] then queue.(frames := queue.frames[1..]) else queue
  }

  /** Everything handed to the sender and not yet sent. */
  function Unsent(x: Session, queue: seq<Frame>): seq<Frame> {
    if x.held.Some? then [x.held.value] + queue else queue
  }

  /** The sender's slice invariant: sent frames carry the stream from start to sent. */
  ghost predicate Sliced(stream: Bytes, x: Session, client: Option<Client>) {
    && x.window.Safe()
    && Carries(stream, x.frames, x.start, Reach(x.frames, x.start))
    && (!x.phase.Finished? ==> client.Some? && Feeding(stream, x, client.value))
  }

  /** Unsent frames carry the stream on from sent to the cut, which is the end of the stream
      unless a chunk was missed. client is the registration of the session. */
  ghost predicate Feeding(stream: Bytes, x: Session, client: Client) {
    && x.window.sent == Reach(x.frames, x.start)
    && (client.active ==> !x.missed)
    && Fed(stream, x.window.sent, Unsent(x, client.output.frames), x.missed)
  }

  ghost predicate Fed(stream: Bytes, sent: nat, unsent: seq<Frame>, missed: bool) {
    && Carries(stream, unsent, sent, Reach(unsent, sent))
    && (missed <==> Reach(unsent, sent) < |stream|)
  }

  /** Announcements precede everything, and the end message follows everything. */
  ghost predicate Ordered(stream: Bytes, closed: bool, x: Session) {
    && (x.phase.Announcing? ==> !x.announced)
    && (x.phase.Sending? ==> x.announced)
    && (!x.announced ==> x.frames == [])
    && (x.phase.Announcing? ==> (x.mine ==> x.inflight == []) && x.acks == [] && x.window.acked == x.start)
    && (x.ended.Some? ==>
          && x.announced && x.phase.Finished? && closed
          && x.ended.value == Reach(x.frames, x.start) == |stream|)
  }

  /** The acknowledgments of the observed browser are in order and in the window. */
  ghost predicate AcksInOrder(x: Session) {
    x.mine && x.phase.Sending? ==> Ascending(x.acks + x.inflight, x.window.acked, x.window.sent)
  }

  ghost predicate Ascending(offsets: seq<nat>, low: nat, high: nat) {
    if offsets == [] then low <= high
    else low <= offsets[0] && Ascending(offsets[1..], offsets[0], high)
  }

  /** The acknowledgment that will be in force once all of these have been handled. */
  function Latest(offsets: seq<nat>, acked: nat): nat {
    if offsets == [] then acked else offsets[|offsets| - 1]
  }

  lemma {:induction false} AscendingAppend(offsets: seq<nat>, low: nat, high: nat, offset: nat, higher: nat)
    requires Ascending(offsets, low, high) && high <= offset <= higher
    ensures Ascending(offsets + [offset], low, higher)
    decreases |offsets|
  {
    if offsets != [] {
      AscendingAppend(offsets[1..], offsets[0], high, offset, higher);
      assert (offsets + [offset])[1..] == offsets[1..] + [offset];
    } else {
      assert ([] + [offset])[1..] == [];
    }
  }

  lemma {:induction false} AscendingRaise(offsets: seq<nat>, low: nat, high: nat, higher: nat)
    requires Ascending(offsets, low, high) && high <= higher
    ensures Ascending(offsets, low, higher)
    decreases |offsets|
  {
    if offsets != [] {
      AscendingRaise(offsets[1..], offsets[0], high, higher);
    }
  }

  ghost predicate Good(stream: Bytes, closed: bool, client: Option<Client>, x: Session) {
    Sliced(stream, x, client) && Ordered(stream, closed, x) && AcksInOrder(x)
  }

  // A new session.

  lemma AcceptedIsGood(stream: Bytes, closed: bool, mine: bool, history: Frame, gap: bool)
    requires Holds(stream, history) && history.End() == |stream|
    ensures Good(stream, closed, Some(Client(Queue([], closed), !closed)), Accepted(mine, history, gap))
  {
  }

  // Each act keeps the session good.

  lemma ActKeepsGood(stream: Bytes, t: State, client: Client, x: Session, act: Act)
    requires |stream| < TWO_TO_THE_64 && t.nextOffset == |stream|
    requires Good(stream, t.closed, Some(client), x) && Enabled(x, client.output, act)
    ensures Good(stream, t.closed, Some(client.(output := QueueAfter(client.output, act))),
                 AfterAct(x, client.output, FinishedAt(t, x.window.sent), act))
  {
    match act
    case Announce(result) => AnnounceKeepsGood(stream, t.closed, client, x, result);
    case Write(result) => WriteOutKeepsGood(stream, t.closed, client, x, result);
    case TakeChunk => TakeChunkKeepsGood(stream, t.closed, client, x);
    case HandleAck => HandleAckKeepsGood(stream, t.closed, client, x);
    case Drain(result) => DrainKeepsGood(stream, t, client, x, result);
    case ReadAck => ReadAckKeepsGood(stream, t.closed, client, x);
    case Abort => AbortKeepsGood(stream, t.closed, client, x);
  }

  lemma AbortKeepsGood(stream: Bytes, closed: bool, client: Client, x: Session)
    requires Good(stream, closed, Some(client), x)
    ensures Good(stream, closed, Some(client), x.(phase := Finished))
  {
    SameOutputKeepsSliced(stream, client, x, x.(phase := Finished));
  }

  lemma SameOutputKeepsSliced(stream: Bytes, client: Client, x: Session, y: Session)
    requires Sliced(stream, x, Some(client))
    requires y.start == x.start && y.frames == x.frames && y.held == x.held && y.missed == x.missed
    requires y.window.Safe()
    requires y.phase.Finished? || (!x.phase.Finished? && y.window.sent == x.window.sent)
    ensures Sliced(stream, y, Some(client))
  {
  }

  lemma AnnounceKeepsGood(stream: Bytes, closed: bool, client: Client, x: Session, result: Result)
    requires Good(stream, closed, Some(client), x) && x.phase.Announcing?
    ensures Good(stream, closed, Some(client), AfterAnnounce(x, result))
  {
  }

  lemma TakeChunkKeepsGood(stream: Bytes, closed: bool, client: Client, x: Session)
    requires Good(stream, closed, Some(client), x) && Enabled(x, client.output, TakeChunk)
    ensures Good(stream, closed, Some(client.(output := QueueAfter(client.output, TakeChunk))),
                 AfterTake(x, client.output.frames[0]))
  {
    var queue := client.output.frames;
    assert queue == [queue[0]] + queue[1..];
  }

  lemma HandleAckKeepsGood(stream: Bytes, closed: bool, client: Client, x: Session)
    requires Good(stream, closed, Some(client), x) && x.phase.Sending? && x.acks != []
    ensures Good(stream, closed, Some(client), AfterAck(x))
  {
    SameOutputKeepsSliced(stream, client, x, AfterAck(x));
    SameOutputKeepsOrdered(stream, closed, x, AfterAck(x));
    HandledAckKeepsOrder(x);
  }

  lemma SameOutputKeepsOrdered(stream: Bytes, closed: bool, x: Session, y: Session)
    requires Ordered(stream, closed, x) && x.phase.Sending? && !y.phase.Announcing?
    requires y.start == x.start && y.frames == x.frames && y.announced == x.announced && y.ended == x.ended
    ensures Ordered(stream, closed, y)
  {
  }

  lemma HandledAckKeepsOrder(x: Session)
    requires AcksInOrder(x) && x.phase.Sending? && x.acks != []
    ensures AcksInOrder(AfterAck(x))
  {
    var y, all := AfterAck(x), x.acks + x.inflight;
    assert all[0] == x.acks[0] && y.acks + y.inflight == all[1..];
  }

  lemma ReadAckKeepsGood(stream: Bytes, closed: bool, client: Client, x: Session)
    requires Good(stream, closed, Some(client), x) && x.phase.Sending? && x.inflight != []
    ensures Good(stream, closed, Some(client), AfterRead(x))
  {
    SameOutputKeepsSliced(stream, client, x, AfterRead(x));
    SameOutputKeepsOrdered(stream, closed, x, AfterRead(x));
    ReadAckKeepsOrder(x);
  }

  lemma ReadAckKeepsOrder(x: Session)
    requires AcksInOrder(x) && x.phase.Sending? && x.inflight != []
    ensures AcksInOrder(AfterRead(x))
  {
    var y := AfterRead(x);
    if y.phase.Sending? {
      assert y.acks + y.inflight == x.acks + x.inflight;
    }
  }

  lemma DrainKeepsGood(stream: Bytes, t: State, client: Client, x: Session, result: Result)
    requires t.nextOffset == |stream|
    requires Good(stream, t.closed, Some(client), x) && x.phase.Sending?
    ensures Good(stream, t.closed, Some(client), AfterDrain(x, FinishedAt(t, x.window.sent), result))
  {
  }

  /** What is written next continues what was sent, and what stays behind continues it. */
  lemma WantedFits(stream: Bytes, x: Session, queue: seq<Frame>)
    requires |stream| < TWO_TO_THE_64 && x.held.Some?
    requires Fed(stream, x.window.sent, Unsent(x, queue), x.missed)
    ensures var frame := Wanted(x).value;
            && frame.offset == x.window.sent && Holds(stream, frame)
            && Fed(stream, frame.End(), Unsent(Put(x, frame, Sent), queue), x.missed)
  {
    var whole := x.held.value;
    TailFits(stream, x.window.sent, whole, queue, x.missed);
    if x.saved {
      SplitHolds(stream, whole);
      if AfterPiece(whole).data != [] {
        PrependFits(stream, AfterPiece(whole), queue, x.missed);
      }
    }
  }

  lemma TailFits(stream: Bytes, sent: nat, whole: Frame, queue: seq<Frame>, missed: bool)
    requires Fed(stream, sent, [whole] + queue, missed)
    ensures whole.offset == sent && Holds(stream, whole) && Fed(stream, whole.End(), queue, missed)
  {
    CarriesTail(stream, [whole] + queue, sent, Reach([whole] + queue, sent));
    assert ([whole] + queue)[1..] == queue;
  }

  lemma PrependFits(stream: Bytes, frame: Frame, queue: seq<Frame>, missed: bool)
    requires Holds(stream, frame) && Fed(stream, frame.End(), queue, missed)
    ensures Fed(stream, frame.offset, [frame] + queue, missed)
  {
    CarriesAppend(stream, [], frame.offset, frame);
    assert [] + [frame] == [frame];
    CarriesConcat(stream, [frame], queue, frame.offset, frame.End(), Reach(queue, frame.End()));
  }

  lemma WriteOutKeepsGood(stream: Bytes, closed: bool, client: Client, x: Session, result: Result)
    requires |stream| < TWO_TO_THE_64
    requires Good(stream, closed, Some(client), x) && Enabled(x, client.output, Write(result))
    ensures Good(stream, closed, Some(client), Put(x, Wanted(x).value, result))
  {
    WantedFits(stream, x, client.output.frames);
    if result == Sent {
      SentKeepsGood(stream, closed, client, x);
    }
  }

  lemma SentKeepsGood(stream: Bytes, closed: bool, client: Client, x: Session)
    requires |stream| < TWO_TO_THE_64
    requires Good(stream, closed, Some(client), x) && Enabled(x, client.output, Write(Sent))
    ensures Good(stream, closed, Some(client), Put(x, Wanted(x).value, Sent))
  {
    SentKeepsSliced(stream, client, x);
    SentKeepsAcks(stream, client, x);
  }

  lemma SentKeepsSliced(stream: Bytes, client: Client, x: Session)
    requires |stream| < TWO_TO_THE_64
    requires Sliced(stream, x, Some(client)) && Enabled(x, client.output, Write(Sent))
    ensures Sliced(stream, Put(x, Wanted(x).value, Sent), Some(client))
  {
    var frame := Wanted(x).value;
    WantedFits(stream, x, client.output.frames);
    CarriesAppend(stream, x.frames, x.start, frame);
    WindowStaysSafe(x.window, frame, |stream|);
    assert Reach(x.frames + [frame], x.start) == frame.End();
  }

  lemma WindowStaysSafe(w: Window, frame: Frame, end: nat)
    requires w.Safe() && frame.offset == w.sent && frame.End() <= end < TWO_TO_THE_64
    requires !w.Blocked(Add64(frame.offset, |frame.data|))
    ensures Add64(frame.offset, |frame.data|) == frame.End() && Window(w.acked, frame.End()).Safe()
  {
  }

  lemma SentKeepsAcks(stream: Bytes, client: Client, x: Session)
    requires |stream| < TWO_TO_THE_64
    requires Sliced(stream, x, Some(client)) && AcksInOrder(x) && Enabled(x, client.output, Write(Sent))
    ensures AcksInOrder(Put(x, Wanted(x).value, Sent))
  {
    var frame := Wanted(x).value;
    WantedFits(stream, x, client.output.frames);
    NoWrap(x.window, frame.End());
    if x.mine {
      AscendingRaise(x.acks + x.inflight, x.window.acked, x.window.sent, frame.End());
    }
  }

  /** No acknowledgment of the observed browser is ever refused. */
  lemma OwnAckAccepted(client: Client, x: Session)
    requires AcksInOrder(x) && x.mine && Enabled(x, client.output, HandleAck)
    ensures x.window.Acknowledge(x.acks[0]).Some?
  {
    AscendingHead(x.acks + x.inflight, x.window.acked, x.window.sent);
    assert (x.acks + x.inflight)[0] == x.acks[0];
  }

  lemma {:induction false} AscendingHead(offsets: seq<nat>, low: nat, high: nat)
    requires Ascending(offsets, low, high)
    ensures low <= high && (offsets != [] ==> low <= offsets[0] <= high)
    decreases |offsets|
  {
    if offsets != [] {
      AscendingHead(offsets[1..], offsets[0], high);
    }
  }

  /** An acknowledgment leaves the browser; another client may send any number. */
  function AfterPush(x: Session, offset: nat): Session {
    x.(inflight := x.inflight + [offset])
  }

  lemma PushKeepsGood(stream: Bytes, closed: bool, client: Option<Client>, x: Session, offset: nat, high: nat)
    requires Good(stream, closed, client, x)
    requires x.mine ==> !x.phase.Announcing?
    requires x.mine && x.phase.Sending? ==>
               Ascending(x.acks + x.inflight, x.window.acked, high) && high <= offset <= x.window.sent
    ensures Good(stream, closed, client, AfterPush(x, offset))
  {
    var y := AfterPush(x, offset);
    if !x.phase.Finished? {
      SameOutputKeepsSliced(stream, client.value, x, y);
    }
    if x.mine && x.phase.Sending? {
      AscendingAppend(x.acks + x.inflight, x.window.acked, high, offset, x.window.sent);
      assert y.acks + y.inflight == x.acks + x.inflight + [offset];
    }
  }

  // What the terminal does to a session.

  lemma WriteKeepsGood(stream: Bytes, client: Client, x: Session, data: Bytes, missed: bool)
    requires |stream| + |data| < TWO_TO_THE_64
    requires client.output.closed == !client.active
    requires Good(stream, false, Some(client), x)
    requires missed == (x.missed || (data != [] && !Offer(client, Frame(|stream|, data)).active))
    ensures Good(stream + data, false, Some(Offer(client, Frame(|stream|, data))), x.(missed := missed))
  {
    CarriesMonotone(stream, stream + data, x.frames, x.start, Reach(x.frames, x.start));
    if !x.phase.Finished? {
      WriteKeepsFed(stream, client, x, data, missed);
    }
  }

  lemma WriteKeepsFed(stream: Bytes, client: Client, x: Session, data: Bytes, missed: bool)
    requires |stream| + |data| < TWO_TO_THE_64
    requires client.output.closed == !client.active
    requires Feeding(stream, x, client)
    requires missed == (x.missed || (data != [] && !Offer(client, Frame(|stream|, data)).active))
    ensures Feeding(stream + data, x.(missed := missed), Offer(client, Frame(|stream|, data)))
  {
    var chunk := Frame(|stream|, data);
    var unsent, after := Unsent(x, client.output.frames), Offer(client, chunk);
    FedGrows(stream, x.window.sent, unsent, x.missed, chunk, after.active);
    assert Unsent(x.(missed := missed), after.output.frames) == if after.active then unsent + [chunk] else unsent;
  }

  lemma FedGrows(stream: Bytes, sent: nat, unsent: seq<Frame>, missed: bool, chunk: Frame, queued: bool)
    requires Fed(stream, sent, unsent, missed) && chunk.offset == |stream| && (queued ==> !missed)
    ensures Fed(stream + chunk.data, sent, if queued then unsent + [chunk] else unsent,
                missed || (chunk.data != [] && !queued))
  {
    var longer := stream + chunk.data;
    CarriesMonotone(stream, longer, unsent, sent, Reach(unsent, sent));
    CarriesBounds(stream, unsent, sent, Reach(unsent, sent));
    if queued {
      CarriesAppend(longer, unsent, sent, chunk);
    }
  }
}
