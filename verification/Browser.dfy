/** One browser's view of one invocation (internal/server/web/src/terminal.js).
    xterm renders queued writes in order; its callbacks are the method Rendered. */
module Browser {
  import opened Wrappers
  import opened Words
  import opened Terminal
  import opened FrameCodec

  datatype Message = Binary(raw: Bytes) | Replay(offset: uint64, gap: bool) | End(offset: uint64)

  /** Idle: no connection, and none before or its writes all rendered. Closed: the last
      connection is gone, but its queued writes may still be waiting for their callbacks. */
  datatype Socket = Idle | Connecting(cursor: Option<nat>) | Open(received: Option<nat>) | Closed

  /** A queued write is kept as the frame it came in; its callback records the frame's end,
      unless the write is stale: one of the oldest, queued on an earlier connection. */
  datatype View = View(
    screen: Bytes, queued: seq<Frame>, stale: nat, rendered: Option<nat>,
    socket: Socket, exited: bool, outputComplete: bool)

  const FRESH := View([], [], 0, None, Idle, false, false)

  function AfterMessage(b: View, message: Message): View {
    if !b.socket.Open? then b
    else
      match message
      case Binary(raw) =>
        var frame := Decode(raw);
        if frame.None? || Some(frame.value.offset as nat) != b.socket.received then
          b.(socket := Closed)
        else
          b.(socket := Open(Some(frame.value.End())), queued := b.queued + [frame.value])
      case Replay(offset, gap) =>
        b.(socket := Open(Some(offset)), rendered := Some(offset), screen := if gap then [] else b.screen)
      case End(offset) =>
        b.(outputComplete := b.outputComplete || b.socket.received == Some(offset))
  }

  function AfterRender(b: View): View
    requires b.queued != []
  {
    b.(screen := b.screen + b.queued[0].data,
       queued := b.queued[1..],
       stale := if b.stale > 0 then b.stale - 1 else 0,
       rendered := if b.stale > 0 then b.rendered else Some(b.queued[0].End()))
  }

  /** What the callback of the oldest write sends back. */
  function Acknowledgment(b: View): Option<nat>
    requires b.queued != []
  {
    if b.stale == 0 && b.socket.Open? then Some(b.queued[0].End()) else None
  }

  predicate MayConnect(b: View) {
    b.socket.Idle? && !b.exited && !b.outputComplete
  }

  function AfterConnect(b: View): View {
    if MayConnect(b) then b.(socket := Connecting(b.rendered), stale := |b.queued|) else b
  }

  function AfterClose(b: View): View {
    if b.socket.Open? || b.socket.Connecting? then b.(socket := Closed) else b
  }

  /** The retry timer starts only once the pending write, and so every write, is rendered. */
  function AfterSettle(b: View): View {
    if b.socket.Closed? && b.queued == [] then b.(socket := Idle) else b
  }

  // What the page takes from a server it need not trust.

  /** Messages in the order they come. */
  function AfterMessages(b: View, messages: seq<Message>): View
    decreases |messages|
  {
    if messages == [] then b
    else AfterMessage(AfterMessages(b, messages[..|messages| - 1]), messages[|messages| - 1])
  }

  /** Each frame begins where the one before ends, and the first at start. */
  ghost predicate Contiguous(frames: seq<Frame>, start: nat) {
    forall i {:trigger frames[i]} :: 0 <= i < |frames| ==>
      frames[i].offset == EndOf(frames[..i], start)
  }

  function EndOf(frames: seq<Frame>, start: nat): nat {
    if frames == [] then start else frames[|frames| - 1].End()
  }

  /** What the page has queued since, on top of what was queued. */
  function Since(b: View, a: View): seq<Frame> {
    if b.queued <= a.queued then a.queued[|b.queued|..] else a.queued
  }

  ghost predicate Continues(b: View, a: View, start: nat) {
    && b.queued <= a.queued && a.screen == b.screen && a.rendered == b.rendered
    && Contiguous(Since(b, a), start)
    && (a.socket.Closed? || a.socket == Open(Some(EndOf(Since(b, a), start))))
  }

  lemma FrameContinues(frames: seq<Frame>, start: nat, frame: Frame)
    requires Contiguous(frames, start) && frame.offset == EndOf(frames, start)
    ensures Contiguous(frames + [frame], start)
  {
  }

  lemma MessageContinues(b: View, a: View, message: Message, start: nat)
    requires Continues(b, a, start) && !message.Replay?
    ensures Continues(b, AfterMessage(a, message), start)
  {
    if message.Binary? && a.socket.Open? && AfterMessage(a, message).socket.Open? {
      var frame := Decode(message.raw).value;
      FrameContinues(Since(b, a), start, frame);
      assert Since(b, AfterMessage(a, message)) == Since(b, a) + [frame];
    }
  }

  /** Message k is an end message for the end of what was queued when it came. */
  ghost predicate EndsThere(b: View, messages: seq<Message>, k: nat, start: nat) {
    && k < |messages| && messages[k].End?
    && messages[k].offset as nat == EndOf(Since(b, AfterMessages(b, messages[..k])), start)
  }

  /** Whatever a server sends after a replay that begins at start, the page queues only frames
      that continue each other from there, leaves its screen alone, and believes an end message
      only for the end of what it had queued when the message came. */
  lemma {:induction false} TakesOnlyContinuations(b: View, messages: seq<Message>, start: nat)
    requires b.socket == Open(Some(start)) && forall m <- messages :: !m.Replay?
    ensures Continues(b, AfterMessages(b, messages), start)
    ensures AfterMessages(b, messages).outputComplete && !b.outputComplete ==>
              exists k: nat :: EndsThere(b, messages, k, start)
    decreases |messages|
  {
    if messages != [] {
      var n := |messages| - 1;
      var a := AfterMessages(b, messages[..n]);
      TakesOnlyContinuations(b, messages[..n], start);
      MessageContinues(b, a, messages[n], start);
      if a.outputComplete && !b.outputComplete {
        var k: nat :| EndsThere(b, messages[..n], k, start);
        assert messages[..n][..k] == messages[..k];
        assert EndsThere(b, messages, k, start);
      } else if AfterMessages(b, messages).outputComplete && !b.outputComplete {
        assert EndsThere(b, messages, n, start);
      }
    }
  }

  /** The closures of mountTerminal over their shared variables. */
  class Page {
    var screen: Bytes
    var queued: seq<Frame>
    var stale: nat
    var rendered: Option<nat>
    var socket: Socket
    var exited: bool
    var outputComplete: bool

    ghost function Current(): View
      reads this
    {
      View(screen, queued, stale, rendered, socket, exited, outputComplete)
    }

    constructor ()
      ensures Current() == FRESH
    {
      screen, queued, stale, rendered, socket := [], [], 0, None, Idle;
      exited, outputComplete := false, false;
    }

    /** connect: resume at the first byte that is not on the screen yet. */
    method Connect()
      modifies this`socket, this`stale
      ensures Current() == AfterConnect(old(Current()))
    {
      if exited || outputComplete || !socket.Idle? {
        return;
      }
      socket := Connecting(rendered);
      stale := |queued|;
    }

    /** onmessage. */
    method OnMessage(message: Message)
      modifies this`screen, this`queued, this`rendered, this`socket, this`outputComplete
      ensures Current() == AfterMessage(old(Current()), message)
    {
      if !socket.Open? {
        return;
      }
      match message
      case Binary(raw) =>
        if |raw| < HEADER {
          socket := Closed;
          return;
        }
        ReadWithinRange(raw[..HEADER]);
        var offset := ReadBigEndian(raw[..HEADER]);
        if socket.received != Some(offset) {
          socket := Closed;
          return;
        }
        var bytes := raw[HEADER..];
        socket := Open(Some(offset + |bytes|));
        queued := queued + [Frame(offset, bytes)];
      case Replay(offset, gap) =>
        socket := Open(Some(offset));
        rendered := Some(offset);
        if gap {
          screen := [];
        }
      case End(offset) =>
        if socket.received == Some(offset) {
          outputComplete := true;
        }
    }

    /** The callback of the oldest queued write. */
    method Rendered() returns (ack: Option<nat>)
      requires queued != []
      modifies this`screen, this`queued, this`stale, this`rendered
      ensures Current() == AfterRender(old(Current())) && ack == old(Acknowledgment(Current()))
    {
      var write := queued[0];
      queued := queued[1..];
      screen := screen + write.data;
      if stale > 0 {
        stale := stale - 1;
        return None;
      }
      rendered := Some(write.End());
      ack := if socket.Open? then rendered else None;
    }

    /** onclose, up to its await. */
    method OnClose()
      modifies this`socket
      ensures Current() == AfterClose(old(Current()))
    {
      if socket.Open? || socket.Connecting? {
        socket := Closed;
      }
    }

    /** onclose after its await, and the retry timer. */
    method Settle()
      modifies this`socket
      ensures Current() == AfterSettle(old(Current()))
    {
      if socket.Closed? && queued == [] {
        socket := Idle;
      }
    }
  }
}
