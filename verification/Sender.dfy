/** The output half of one connection (internal/wrapper/websocket.go): the loops of sendOutput.
    Each method also leaves behind the acts it takes in Session, so what holds there of every
    interleaving holds of these loops. */
module Sender {
  import opened Wrappers
  import opened Words
  import opened Terminal
  import opened Stream
  import opened FlowControl
  import S = Session

  /** What the select statements of sendOutput observe, in the order they observe it.
      QueueClosed carries the final offset of the terminal if it has finished by then. */
  datatype Event =
    | Ack(offset: uint64)
    | Chunk(frame: Frame)
    | QueueClosed(final: Option<uint64>)
    | Cancelled

  datatype Outcome = Running | InvalidAck | Stalled | ConnectionLost | Interrupted | Ended | Dropped

  /** Where the output handed over by the saved history and the first n events ends. */
  ghost function HandedOver(history: Frame, inbox: seq<Event>, n: nat): nat
    requires n <= |inbox|
  {
    if n == 0 then history.End()
    else if inbox[n - 1].Chunk? then inbox[n - 1].frame.End()
    else HandedOver(history, inbox, n - 1)
  }

  /** Each chunk continues the stream where the output handed over before it ends. */
  ghost predicate WellFed(stream: Bytes, history: Frame, inbox: seq<Event>) {
    && |stream| < TWO_TO_THE_64
    && Holds(stream, history)
    && (forall n :: 0 <= n < |inbox| && inbox[n].Chunk? ==>
          inbox[n].frame.offset == HandedOver(history, inbox, n) && Holds(stream, inbox[n].frame))
  }

  lemma {:induction false} AcksHandNothingOver(history: Frame, inbox: seq<Event>, from: nat, end: nat)
    requires from <= end <= |inbox| && forall i :: from <= i < end ==> inbox[i].Ack?
    ensures HandedOver(history, inbox, end) == HandedOver(history, inbox, from)
    decreases end
  {
    if from < end {
      AcksHandNothingOver(history, inbox, from, end - 1);
    }
  }

  /** The acknowledgment in force after the first n events. */
  ghost function LastAck(acked: nat, inbox: seq<Event>, from: nat, n: nat): nat
    requires from <= n <= |inbox|
  {
    if n == from then acked
    else if inbox[n - 1].Ack? then inbox[n - 1].offset
    else LastAck(acked, inbox, from, n - 1)
  }

  lemma {:induction false} LastAckContinues(acked: nat, inbox: seq<Event>, from: nat, n: nat)
    requires from <= n <= |inbox|
    ensures LastAck(LastAck(acked, inbox, 0, from), inbox, from, n) == LastAck(acked, inbox, 0, n)
    decreases n
  {
    if from < n {
      LastAckContinues(acked, inbox, from, n - 1);
    }
  }

  /** The last event was an acknowledgment outside the window. */
  ghost predicate Refused(w: Window, inbox: seq<Event>, from: nat, next: nat) {
    from < next <= |inbox| && inbox[next - 1].Ack? && w.Acknowledge(inbox[next - 1].offset).None?
  }

  // The path through Session.

  /** One act and what its goroutine finds: the acknowledgments that readInput has delivered
      since, the queue, and the answer of finishedAt. */
  datatype Turn = Turn(arrived: seq<nat>, queue: Queue, finished: bool, act: S.Act)

  ghost predicate MayTake(x: S.Session, turn: Turn) {
    && |x.acks + turn.arrived| <= S.ACK_CAPACITY
    && S.Enabled(x.(acks := x.acks + turn.arrived), turn.queue, turn.act)
  }

  ghost function AfterTurn(x: S.Session, turn: Turn): S.Session
    requires MayTake(x, turn)
  {
    S.AfterAct(x.(acks := x.acks + turn.arrived), turn.queue, turn.finished, turn.act)
  }

  ghost predicate Turns(x: S.Session, turn: Turn, y: S.Session) {
    MayTake(x, turn) && y == AfterTurn(x, turn)
  }

  /** The acts taken since the replay message went out, and the sessions they lead through. */
  datatype Trace = Trace(begin: S.Session, turns: seq<Turn>, passed: seq<S.Session>, at: S.Session) {
    ghost predicate Good() {
      && |passed| == |turns| + 1
      && passed[0] == begin && passed[|turns|] == at
      && forall i, j {:trigger Turns(passed[i], turns[i], passed[j])} ::
        0 <= i < |turns| && j == i + 1 ==> Turns(passed[i], turns[i], passed[j])
    }
  }

  lemma Take(t: Trace, turn: Turn) returns (u: Trace)
    requires t.Good() && MayTake(t.at, turn)
    ensures u.Good() && u.begin == t.begin && u.at == AfterTurn(t.at, turn)
  {
    var y := AfterTurn(t.at, turn);
    u := Trace(t.begin, t.turns + [turn], t.passed + [y], y);
    forall i, j | 0 <= i < |u.turns| && j == i + 1
      ensures Turns(u.passed[i], u.turns[i], u.passed[j])
    {
      if i < |t.turns| {
        assert Turns(t.passed[i], t.turns[i], t.passed[j]);
      }
    }
  }

  /** sendOutput is at work with nothing left in its acknowledgment channel. */
  ghost predicate Works(x: S.Session, w: Window) {
    x.phase.Sending? && x.acks == [] && x.window == w && x.ended.None?
  }

  lemma TakeAck(t: Trace, w: Window, offset: uint64) returns (u: Trace)
    requires t.Good() && Works(t.at, w) && (t.at.held.None? || S.MustWait(t.at))
    ensures u.Good() && u.begin == t.begin
    ensures var reply := w.Acknowledge(offset);
            u.at == if reply.Some? then t.at.(window := reply.value) else t.at.(phase := S.Finished)
  {
    var x := t.at.(acks := [offset]);
    assert t.at.acks + [offset] == [offset] && x.acks[1..] == [];
    u := Take(t, Turn([offset], Queue([], false), false, S.HandleAck));
  }

  lemma TakeWrite(t: Trace, w: Window, result: S.Result) returns (u: Trace)
    requires t.Good() && Works(t.at, w) && t.at.held.Some? && !S.MustWait(t.at)
    ensures u.Good() && u.begin == t.begin && u.at == S.Put(t.at, S.Wanted(t.at).value, result)
  {
    assert t.at.acks + [] == t.at.acks;
    u := Take(t, Turn([], Queue([], false), false, S.Write(result)));
  }

  lemma TakeChunk(t: Trace, w: Window, frame: Frame) returns (u: Trace)
    requires t.Good() && Works(t.at, w) && t.at.held.None?
    ensures u.Good() && u.begin == t.begin && u.at == t.at.(held := Some(frame), saved := false)
  {
    assert t.at.acks + [] == t.at.acks;
    u := Take(t, Turn([], Queue([frame], false), false, S.TakeChunk));
  }

  lemma TakeDrain(t: Trace, w: Window, finished: bool) returns (u: Trace)
    requires t.Good() && Works(t.at, w) && t.at.held.None?
    ensures u.Good() && u.begin == t.begin
    ensures u.at == t.at.(ended := if finished then Some(w.sent) else None, phase := S.Finished)
  {
    assert t.at.acks + [] == t.at.acks;
    u := Take(t, Turn([], Queue([], true), finished, S.Drain(S.Sent)));
  }

  lemma TakeAbort(t: Trace, w: Window) returns (u: Trace)
    requires t.Good() && Works(t.at, w)
    ensures u.Good() && u.begin == t.begin && u.at == t.at.(phase := S.Finished)
  {
    assert t.at.acks + [] == t.at.acks;
    u := Take(t, Turn([], Queue([], false), false, S.Abort));
  }

  /** The acts have sent this and ended like this. */
  ghost predicate Leaves(t: Trace, begin: S.Session, wire: seq<Frame>, w: Window, outcome: Outcome) {
    && t.Good() && t.begin == begin
    && t.at.phase.Finished? && t.at.frames == wire && t.at.window == w
    && t.at.ended == if outcome == Ended then Some(w.sent) else None
  }

  // The loops.

  /** What write does to the window: it takes acknowledgments, and nothing else, until the frame
      fits the budget, or stalls; lost says that the connection breaks during this message. */
  ghost predicate Wrote(w: Window, frame: Frame, inbox: seq<Event>, from: nat, lost: bool,
                        after: Window, next: nat, outcome: Outcome) {
    && after.Safe() && after.sent == (if outcome == Running then frame.End() else w.sent)
    && from <= next <= |inbox| && (forall i :: from <= i < next ==> inbox[i].Ack?)
    && outcome in {Running, InvalidAck, Stalled, ConnectionLost}
    && (outcome == InvalidAck ==> Refused(after, inbox, from, next))
    && after.acked == LastAck(w.acked, inbox, from, if outcome == InvalidAck then next - 1 else next)
    && (outcome == Stalled <==> frame.End() - after.acked > BUDGET && outcome != InvalidAck)
    && (outcome == Stalled ==> next == |inbox| || !inbox[next].Ack?)
    && (outcome == ConnectionLost ==> lost) && (outcome == Running ==> !lost)
  }

  /** While write waits: the acknowledgments among inbox[from..next] are in force. */
  ghost predicate Waiting(w: Window, inbox: seq<Event>, from: nat, t: Trace, after: Window, next: nat, u: Trace) {
    && after.Safe() && after.sent == w.sent
    && from <= next <= |inbox| && (forall i :: from <= i < next ==> inbox[i].Ack?)
    && after.acked == LastAck(w.acked, inbox, from, next)
    && u.Good() && u.begin == t.begin && u.at == t.at.(window := after)
  }

  /** How the wait of write ends. */
  ghost predicate Awaited(w: Window, frame: Frame, inbox: seq<Event>, from: nat, t: Trace,
                          after: Window, next: nat, outcome: Outcome, u: Trace) {
    match outcome
    case Running => Waiting(w, inbox, from, t, after, next, u) && frame.End() <= after.acked + BUDGET
    case Stalled =>
      && Wrote(w, frame, inbox, from, false, after, next, Stalled)
      && Leaves(u, t.begin, t.at.frames, after, Stalled)
    case InvalidAck =>
      && Wrote(w, frame, inbox, from, false, after, next, InvalidAck)
      && Leaves(u, t.begin, t.at.frames, after, InvalidAck)
    case _ => false
  }

  /** write may be called: the frame continues what was sent, and is what the acts write next. */
  ghost predicate MayWrite(w: Window, frame: Frame, inbox: seq<Event>, from: nat, t: Trace) {
    && w.Safe() && from <= |inbox| && frame.offset == w.sent && frame.End() < TWO_TO_THE_64
    && t.Good() && Works(t.at, w) && S.Wanted(t.at) == Some(frame)
  }

  lemma AckIsTaken(w: Window, frame: Frame, inbox: seq<Event>, from: nat, t: Trace, after: Window, next: nat, u: Trace)
    returns (v: Trace)
    requires MayWrite(w, frame, inbox, from, t) && Waiting(w, inbox, from, t, after, next, u)
    requires after.Blocked(Add64(frame.offset, |frame.data|)) && next < |inbox| && inbox[next].Ack?
    ensures var reply := after.Acknowledge(inbox[next].offset);
            if reply.Some? then Waiting(w, inbox, from, t, reply.value, next + 1, v)
            else Awaited(w, frame, inbox, from, t, after, next + 1, InvalidAck, v)
  {
    v := TakeAck(u, after, inbox[next].offset);
  }

  lemma StallIsTaken(w: Window, frame: Frame, inbox: seq<Event>, from: nat, t: Trace, after: Window, next: nat,
                     u: Trace)
    returns (v: Trace)
    requires MayWrite(w, frame, inbox, from, t) && Waiting(w, inbox, from, t, after, next, u)
    requires after.Blocked(Add64(frame.offset, |frame.data|)) && (next == |inbox| || !inbox[next].Ack?)
    ensures Awaited(w, frame, inbox, from, t, after, next, Stalled, v)
  {
    v := TakeAbort(u, after);
    NoWrap(after, frame.End());
  }

  /** The wait at the beginning of write. */
  method Await(w: Window, frame: Frame, inbox: seq<Event>, from: nat, ghost t: Trace)
    returns (after: Window, next: nat, outcome: Outcome, ghost u: Trace)
    requires MayWrite(w, frame, inbox, from, t)
    ensures Awaited(w, frame, inbox, from, t, after, next, outcome, u)
  {
    after, next, u := w, from, t;
    var end := Add64(frame.offset, |frame.data|);
    while after.Blocked(end)
      invariant Waiting(w, inbox, from, t, after, next, u)
      decreases |inbox| - next
    {
      if next == |inbox| || !inbox[next].Ack? {
        u := StallIsTaken(w, frame, inbox, from, t, after, next, u);
        return after, next, Stalled, u;
      }
      u := AckIsTaken(w, frame, inbox, from, t, after, next, u);
      var reply := after.Acknowledge(inbox[next].offset);
      next := next + 1;
      if reply.None? {
        return after, next, InvalidAck, u;
      }
      after := reply.value;
    }
    NoWrap(after, end);
    outcome := Running;
  }

  /** How write ends. */
  ghost predicate Written(w: Window, frame: Frame, inbox: seq<Event>, from: nat, lost: bool, t: Trace,
                          after: Window, next: nat, outcome: Outcome, u: Trace)
    requires t.at.held.Some?
  {
    && Wrote(w, frame, inbox, from, lost, after, next, outcome)
    && (if outcome == Running then
          && u.Good() && u.begin == t.begin
          && u.at == S.Put(t.at.(window := Window(after.acked, w.sent)), frame, S.Sent)
        else Leaves(u, t.begin, t.at.frames, after, outcome))
  }

  lemma FrameIsTaken(w: Window, frame: Frame, inbox: seq<Event>, from: nat, lost: bool, t: Trace,
                     after: Window, next: nat, u: Trace)
    returns (v: Trace)
    requires MayWrite(w, frame, inbox, from, t) && t.at.held.Some?
    requires Awaited(w, frame, inbox, from, t, after, next, Running, u)
    ensures if lost then Written(w, frame, inbox, from, lost, t, after, next, ConnectionLost, v)
            else Written(w, frame, inbox, from, lost, t, Window(after.acked, frame.End()), next, Running, v)
  {
    NoWrap(after, frame.End());
    v := TakeWrite(u, after, if lost then S.Lost(false) else S.Sent);
  }

  /** The closure write of sendOutput. lost says that the connection breaks at this message. */
  method Write(w: Window, frame: Frame, inbox: seq<Event>, from: nat, lost: bool, ghost t: Trace)
    returns (after: Window, next: nat, outcome: Outcome, ghost u: Trace)
    requires MayWrite(w, frame, inbox, from, t)
    ensures Wrote(w, frame, inbox, from, lost, after, next, outcome)
    ensures Written(w, frame, inbox, from, lost, t, after, next, outcome, u)
  {
    after, next, outcome, u := Await(w, frame, inbox, from, t);
    if outcome != Running {
      return;
    }
    u := FrameIsTaken(w, frame, inbox, from, lost, t, after, next, u);
    if lost {
      return after, next, ConnectionLost, u;
    }
    after := Window(after.acked, Add64(frame.offset, |frame.data|));
  }

  /** Saved output goes out in pieces of 32 KiB and one that is the rest; chunks go out as they
      came. */
  ghost predicate Cut(history: Frame, frame: Frame, inbox: seq<Event>) {
    if frame.offset < history.End() then |frame.data| == Min(32 * 1024, history.End() - frame.offset)
    else Chunk(frame) in inbox
  }

  ghost predicate AllCut(history: Frame, inbox: seq<Event>, wire: seq<Frame>) {
    forall frame <- wire :: Cut(history, frame, inbox)
  }

  /** What sendOutput has put on the wire and where it stands after the first n events. */
  ghost predicate Served(stream: Bytes, history: Frame, inbox: seq<Event>, writes: nat,
                         wire: seq<Frame>, w: Window, n: nat) {
    && n <= |inbox| && |wire| <= writes
    && w.Safe() && Carries(stream, wire, history.offset, w.sent)
    && w.acked == LastAck(history.offset, inbox, 0, n)
    && AllCut(history, inbox, wire)
  }

  /** Why and where sendOutput ends. inbox[..next] was observed; the connection broke after
      `writes` messages. */
  ghost predicate Ends(stream: Bytes, history: Frame, inbox: seq<Event>, writes: nat,
                       wire: seq<Frame>, w: Window, next: nat, outcome: Outcome) {
    && next <= |inbox|
    && (outcome == InvalidAck ==> Refused(w, inbox, 0, next))
    && Served(stream, history, inbox, writes, wire, w, if outcome == InvalidAck then next - 1 else next)
    && w.sent <= HandedOver(history, inbox, next)
    && (match outcome
        case Running => false
        case InvalidAck => true
        case Stalled => HandedOver(history, inbox, next) > w.acked + BUDGET && (next == |inbox| || !inbox[next].Ack?)
        case ConnectionLost => |wire| == writes
        case Interrupted =>
          w.sent == HandedOver(history, inbox, next) && (next == |inbox| || (next > 0 && inbox[next - 1].Cancelled?))
        case _ =>
          && w.sent == HandedOver(history, inbox, next)
          && next > 0 && inbox[next - 1].QueueClosed?
          && (outcome == Ended <==> inbox[next - 1].final == Some(w.sent)))
  }

  /** What a write adds to the connection, or how it ends it. */
  lemma FrameIsServed(stream: Bytes, history: Frame, inbox: seq<Event>, writes: nat, wire: seq<Frame>, w: Window,
                      from: nat, frame: Frame, after: Window, next: nat, outcome: Outcome)
    requires Served(stream, history, inbox, writes, wire, w, from)
    requires Holds(stream, frame) && frame.offset == w.sent && Cut(history, frame, inbox)
    requires frame.End() <= HandedOver(history, inbox, from)
    requires Wrote(w, frame, inbox, from, |wire| == writes, after, next, outcome)
    ensures HandedOver(history, inbox, next) == HandedOver(history, inbox, from)
    ensures outcome == Running ==> Served(stream, history, inbox, writes, wire + [frame], after, next)
    ensures outcome != Running ==> Ends(stream, history, inbox, writes, wire, after, next, outcome)
  {
    AcksHandNothingOver(history, inbox, from, next);
    LastAckContinues(history.offset, inbox, from, if outcome == InvalidAck then next - 1 else next);
    if outcome == Running {
      CarriesAppend(stream, wire, history.offset, frame);
      CutAppend(history, inbox, wire, frame);
    }
  }

  lemma CutAppend(history: Frame, inbox: seq<Event>, wire: seq<Frame>, frame: Frame)
    requires AllCut(history, inbox, wire) && Cut(history, frame, inbox)
    ensures AllCut(history, inbox, wire + [frame])
  {
  }

  /** An attachment that was sent its replay message. */
  ghost predicate Begins(x: S.Session, history: Frame) {
    exists mine: bool, gap: bool :: x == S.AfterAnnounce(S.Accepted(mine, history, gap), S.Sent)
  }

  /** The acts have sent this, and this is held to be sent next. */
  ghost predicate Stands(t: Trace, begin: S.Session, wire: seq<Frame>, w: Window, held: Option<Frame>, saved: bool) {
    && t.Good() && t.begin == begin && Works(t.at, w)
    && t.at.frames == wire && t.at.held == held && (held.Some? ==> t.at.saved == saved)
  }

  /** sendOutput at work: what it has sent, and what the acts have. */
  ghost predicate AtWork(stream: Bytes, history: Frame, inbox: seq<Event>, writes: nat, begin: S.Session,
                         wire: seq<Frame>, w: Window, n: nat, t: Trace, held: Option<Frame>, saved: bool) {
    && Served(stream, history, inbox, writes, wire, w, n)
    && Stands(t, begin, wire, w, held, saved)
  }

  /** sendOutput has returned. */
  ghost predicate AtEnd(stream: Bytes, history: Frame, inbox: seq<Event>, writes: nat, begin: S.Session,
                        wire: seq<Frame>, w: Window, next: nat, outcome: Outcome, t: Trace) {
    && Ends(stream, history, inbox, writes, wire, w, next, outcome)
    && Leaves(t, begin, wire, w, outcome)
  }

  /** sendOutput: saved output in bounded pieces, then live chunks as they arrive. The acts
      left behind begin after the replay message and end with the same output and window. */
  method SendOutput(history: Frame, inbox: seq<Event>, writes: nat, ghost stream: Bytes, ghost begin: S.Session)
    returns (wire: seq<Frame>, w: Window, next: nat, outcome: Outcome, ghost t: Trace)
    requires WellFed(stream, history, inbox) && Begins(begin, history)
    ensures Ends(stream, history, inbox, writes, wire, w, next, outcome)
    ensures Leaves(t, begin, wire, w, outcome)
  {
    wire, w, next, outcome := [], Window(history.offset, history.offset), 0, Running;
    t := Trace(begin, [], [begin], begin);
    var saved := history;
    while saved.data != []
      invariant AtWork(stream, history, inbox, writes, begin, wire, w, next, t, S.Held(saved), true)
      invariant saved.offset == w.sent && Holds(stream, saved) && saved.End() == history.End()
      invariant HandedOver(history, inbox, next) == history.End()
      decreases |saved.data|
    {
      var frame := Piece(saved);
      SplitHolds(stream, saved);
      var after, later;
      after, later, outcome, t := Write(w, frame, inbox, next, |wire| == writes, t);
      FrameIsServed(stream, history, inbox, writes, wire, w, next, frame, after, later, outcome);
      next := later;
      if outcome != Running {
        return wire, after, next, outcome, t;
      }
      wire, w, saved := wire + [frame], after, AfterPiece(saved);
    }
    wire, w, next, outcome, t := SendLive(history, inbox, writes, wire, w, next, stream, t);
  }

  /** The live loop at work. */
  ghost predicate Live(stream: Bytes, history: Frame, inbox: seq<Event>, writes: nat, begin: S.Session,
                       wire: seq<Frame>, w: Window, n: nat, t: Trace) {
    && AtWork(stream, history, inbox, writes, begin, wire, w, n, t, None, false)
    && history.End() <= w.sent == HandedOver(history, inbox, n)
  }

  lemma LiveAck(stream: Bytes, history: Frame, inbox: seq<Event>, writes: nat, begin: S.Session,
                wire: seq<Frame>, w: Window, n: nat, t: Trace)
    returns (u: Trace)
    requires Live(stream, history, inbox, writes, begin, wire, w, n, t) && n < |inbox| && inbox[n].Ack?
    ensures var reply := w.Acknowledge(inbox[n].offset);
            if reply.Some? then Live(stream, history, inbox, writes, begin, wire, reply.value, n + 1, u)
            else AtEnd(stream, history, inbox, writes, begin, wire, w, n + 1, InvalidAck, u)
  {
    u := TakeAck(t, w, inbox[n].offset);
  }

  /** The queue is closed, the context has ended, or nothing more is observed. */
  lemma LiveEnds(stream: Bytes, history: Frame, inbox: seq<Event>, writes: nat, begin: S.Session,
                 wire: seq<Frame>, w: Window, n: nat, t: Trace)
    returns (u: Trace)
    requires Live(stream, history, inbox, writes, begin, wire, w, n, t)
    requires n < |inbox| ==> inbox[n].QueueClosed? || inbox[n].Cancelled?
    ensures if n == |inbox| then AtEnd(stream, history, inbox, writes, begin, wire, w, n, Interrupted, u)
            else if inbox[n].Cancelled? then
              AtEnd(stream, history, inbox, writes, begin, wire, w, n + 1, Interrupted, u)
            else
              AtEnd(stream, history, inbox, writes, begin, wire, w, n + 1,
                    if inbox[n].final == Some(w.sent) then Ended else Dropped, u)
  {
    if n < |inbox| && inbox[n].QueueClosed? {
      u := TakeDrain(t, w, inbox[n].final == Some(w.sent));
    } else {
      u := TakeAbort(t, w);
    }
  }

  /** The endless loop at the end of sendOutput. */
  method SendLive(history: Frame, inbox: seq<Event>, writes: nat,
                  sent: seq<Frame>, start: Window, from: nat, ghost stream: Bytes, ghost t: Trace)
    returns (wire: seq<Frame>, w: Window, next: nat, outcome: Outcome, ghost u: Trace)
    requires WellFed(stream, history, inbox)
    requires Live(stream, history, inbox, writes, t.begin, sent, start, from, t)
    ensures Ends(stream, history, inbox, writes, wire, w, next, outcome)
    ensures Leaves(u, t.begin, wire, w, outcome)
  {
    wire, w, next, u := sent, start, from, t;
    while next < |inbox|
      invariant Live(stream, history, inbox, writes, t.begin, wire, w, next, u)
      decreases |inbox| - next
    {
      var event := inbox[next];
      if event.Ack? {
        u := LiveAck(stream, history, inbox, writes, t.begin, wire, w, next, u);
        var reply := w.Acknowledge(event.offset);
        next := next + 1;
        if reply.None? {
          return wire, w, next, InvalidAck, u;
        }
        w := reply.value;
      } else if event.Chunk? {
        var after, later;
        after, later, outcome, u := WriteLive(history, inbox, writes, wire, w, next, stream, t.begin, u);
        next := later;
        if outcome != Running {
          return wire, after, next, outcome, u;
        }
        wire, w := wire + [event.frame], after;
      } else {
        u := LiveEnds(stream, history, inbox, writes, t.begin, wire, w, next, u);
        outcome := if event.Cancelled? then Interrupted else if event.final == Some(w.sent) then Ended else Dropped;
        return wire, w, next + 1, outcome, u;
      }
    }
    u := LiveEnds(stream, history, inbox, writes, t.begin, wire, w, next, u);
    return wire, w, next, Interrupted, u;
  }

  /** One chunk of the live loop. */
  method WriteLive(history: Frame, inbox: seq<Event>, writes: nat, wire: seq<Frame>, w: Window, from: nat,
                   ghost stream: Bytes, ghost begin: S.Session, ghost t: Trace)
    returns (after: Window, next: nat, outcome: Outcome, ghost u: Trace)
    requires WellFed(stream, history, inbox)
    requires Live(stream, history, inbox, writes, begin, wire, w, from, t) && from < |inbox| && inbox[from].Chunk?
    ensures from < next <= |inbox|
    ensures if outcome == Running then
              Live(stream, history, inbox, writes, begin, wire + [inbox[from].frame], after, next, u)
            else AtEnd(stream, history, inbox, writes, begin, wire, after, next, outcome, u)
  {
    var frame := inbox[from].frame;
    u := TakeChunk(t, w, frame);
    after, next, outcome, u := Write(w, frame, inbox, from + 1, |wire| == writes, u);
    FrameIsServed(stream, history, inbox, writes, wire, w, from + 1, frame, after, next, outcome);
  }
}
