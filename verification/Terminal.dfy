/** Output history and broadcast queues of one running terminal (internal/wrapper/terminal.go).
    Each method of the class is one lock-held section, so a run of the terminal is a
    sequence of the transitions After... and Attach, which the methods implement. */
module Terminal {
  import opened Wrappers
  import opened Words

  const REPLAY_LIMIT: nat := 1024 * 1024
  const MAX_CLIENTS: nat := 16
  const QUEUE_CAPACITY: nat := 16

  /** An immutable chunk of output, named by the offset of its first byte. */
  datatype Frame = Frame(offset: uint64, data: Bytes) {
    /** The offset just past the chunk; no reachable stream makes it wrap. */
    function End(): nat { offset + |data| }
  }

  /** A buffered channel. Sending on or closing a closed channel panics, hence the requires. */
  datatype Queue = Queue(frames: seq<Frame>, closed: bool) {
    predicate Full() { |frames| >= QUEUE_CAPACITY }

    function Send(frame: Frame): Queue
      requires !closed && !Full()
    {
      Queue(frames + [frame], closed)
    }

    function Close(): Queue
      requires !closed
    {
      Queue(frames, true)
    }
  }

  datatype Client = Client(output: Queue, active: bool)

  datatype State = State(history: Bytes, nextOffset: uint64, clients: map<nat, Client>, closed: bool)

  datatype Attachment = Attached(history: Frame, gap: bool) | CursorAhead | TooManyAttachments

  /** The channel protocol: a registered queue is closed exactly when its flag is false. */
  ghost predicate QueuesSafe(t: State) {
    && |t.clients| <= MAX_CLIENTS
    && (forall c <- t.clients ::
          && t.clients[c].output.closed == !t.clients[c].active
          && |t.clients[c].output.frames| <= QUEUE_CAPACITY
          && (t.closed ==> !t.clients[c].active))
  }

  /** The bounded history agrees with the unbounded stream of everything ever written. */
  ghost predicate Records(t: State, stream: Bytes) {
    && |stream| < TWO_TO_THE_64
    && t.nextOffset == |stream|
    && t.history == Suffix(stream, REPLAY_LIMIT)
  }

  /** The last n elements, or everything when there are fewer. */
  function Suffix(s: Bytes, n: nat): Bytes {
    if |s| <= n then s else s[|s| - n..]
  }

  /** A full queue is closed and its reader dropped, so writing never waits. */
  function Offer(client: Client, chunk: Frame): Client
    requires client.output.closed == !client.active
  {
    if !client.active then client
    else if client.output.Full() then Client(client.output.Close(), false)
    else Client(client.output.Send(chunk), true)
  }

  ghost function Offered(clients: map<nat, Client>, chunk: Frame): map<nat, Client>
    requires forall c <- clients :: clients[c].output.closed == !clients[c].active
  {
    map c <- clients :: Offer(clients[c], chunk)
  }

  ghost function AfterWrite(t: State, data: Bytes): State
    requires QueuesSafe(t)
  {
    State(Suffix(t.history + data, REPLAY_LIMIT),
          Add64(t.nextOffset, |data|),
          Offered(t.clients, Frame(t.nextOffset, data)),
          t.closed)
  }

  ghost function AttachReply(t: State, cursor: Option<uint64>): Attachment
    requires |t.history| <= t.nextOffset
  {
    var oldest := t.nextOffset - |t.history|;
    if cursor.Some? && cursor.value > t.nextOffset then CursorAhead
    else if |t.clients| >= MAX_CLIENTS then TooManyAttachments
    else
      var start := if cursor.Some? && cursor.value > oldest then cursor.value else oldest;
      Attached(Frame(start, t.history[start - oldest..]),
               if cursor.Some? then cursor.value < oldest else oldest > 0)
  }

  function AfterAttach(t: State, client: nat): State {
    t.(clients := t.clients[client := Client(Queue([], t.closed), !t.closed)])
  }

  ghost function AfterDetach(t: State, client: nat): State {
    t.(clients := t.clients - {client})
  }

  ghost function AfterFinish(t: State): State {
    t.(closed := true,
       clients := map c <- t.clients :: Client(Queue(t.clients[c].output.frames, true), false))
  }

  predicate FinishedAt(t: State, offset: uint64) {
    t.closed && offset == t.nextOffset
  }

  /** The terminal itself. Attachments are named by numbers the caller has not used yet,
      in the place of freshly allocated pointers. */
  class Terminal {
    var history: Bytes
    var nextOffset: uint64
    var clients: map<nat, Client>
    var closed: bool

    ghost function Current(): State
      reads this
    {
      State(history, nextOffset, clients, closed)
    }

    ghost predicate Valid()
      reads this
    {
      QueuesSafe(Current()) && |history| <= nextOffset
    }

    constructor ()
      ensures Valid() && Current() == State([], 0, map[], false) && Records(Current(), [])
    {
      history, nextOffset, clients, closed := [], 0, map[], false;
    }

    method Write(data: Bytes)
      requires Valid() && nextOffset + |data| < TWO_TO_THE_64
      modifies this
      ensures Valid() && Current() == AfterWrite(old(Current()), data)
      ensures clients.Keys == old(clients.Keys)
      ensures forall c <- old(clients) ::
                ReaderAfterWrite(old(clients)[c], clients[c], Frame(old(nextOffset), data))
    {
      history := history + data;
      if |history| > REPLAY_LIMIT {
        history := history[|history| - REPLAY_LIMIT..];
      }
      SafeAfterWrite(old(Current()), data);
      var chunk := Frame(nextOffset, data);
      nextOffset := Add64(nextOffset, |data|);
      Broadcast(chunk);
    }

    /** The loop of Write over all registered attachments, in any order. */
    method Broadcast(chunk: Frame)
      requires QueuesSafe(Current())
      modifies this`clients
      ensures clients == Offered(old(clients), chunk)
      ensures clients.Keys == old(clients.Keys)
      ensures forall c <- old(clients) :: ReaderAfterWrite(old(clients)[c], clients[c], chunk)
    {
      var waiting := clients.Keys;
      while waiting != {}
        invariant waiting <= clients.Keys && clients.Keys == old(clients.Keys)
        invariant forall c <- clients ::
            clients[c] == if c in waiting then old(clients[c]) else Offer(old(clients[c]), chunk)
      {
        var c :| c in waiting;
        waiting := waiting - {c};
        var client := clients[c];
        if client.active {
          if !client.output.Full() {
            clients := clients[c := client.(output := client.output.Send(chunk))];
          } else {
            clients := clients[c := Client(client.output.Close(), false)];
          }
        }
      }
    }

    method Attach(cursor: Option<uint64>, client: nat) returns (reply: Attachment)
      requires Valid() && client !in clients
      modifies this
      ensures Valid() && reply == old(AttachReply(Current(), cursor))
      ensures Current() == if reply.Attached? then AfterAttach(old(Current()), client) else old(Current())
      ensures reply.Attached? ==>
                clients == old(clients)[client := Client(Queue([], closed), !closed)]
    {
      var oldest := Sub64(nextOffset, |history|);
      Exact(nextOffset, |history|);
      var start := oldest;
      var gap := oldest > 0;
      if cursor.Some? {
        if cursor.value > nextOffset {
          return CursorAhead;
        }
        gap := cursor.value < oldest;
        start := if oldest > cursor.value then oldest else cursor.value;
      }
      if |clients| >= MAX_CLIENTS {
        return TooManyAttachments;
      }
      var output := Queue([], false);
      if closed {
        output := output.Close();
      }
      clients := clients[client := Client(output, !closed)];
      SafeAfterAttach(old(Current()), client);
      reply := Attached(Frame(start, history[start - oldest..]), gap);
    }

    method Detach(client: nat)
      requires Valid()
      modifies this
      ensures Valid() && Current() == AfterDetach(old(Current()), client)
    {
      clients := clients - {client};
      SafeAfterDetach(old(Current()), client);
    }

    method Finish()
      requires Valid()
      modifies this
      ensures Valid() && Current() == AfterFinish(old(Current()))
      ensures closed && clients.Keys == old(clients.Keys)
      ensures forall c <- old(clients) ::
                && !clients[c].active && clients[c].output.closed
                && clients[c].output.frames == old(clients)[c].output.frames
    {
      closed := true;
      ghost var marked := Current();
      var waiting := clients.Keys;
      while waiting != {}
        invariant Current() == marked.(clients := clients)
        invariant waiting <= clients.Keys && clients.Keys == old(clients.Keys)
        invariant forall c <- clients ::
            clients[c] == if c in waiting then old(clients[c])
                          else Client(Queue(old(clients[c].output.frames), true), false)
      {
        var c :| c in waiting;
        waiting := waiting - {c};
        var client := clients[c];
        var output := if client.active then client.output.Close() else client.output;
        clients := clients[c := Client(output, false)];
      }
      assert clients == AfterFinish(old(Current())).clients;
      SafeAfterFinish(old(Current()));
    }

    method IsFinishedAt(offset: uint64) returns (finished: bool)
      ensures finished == FinishedAt(Current(), offset)
    {
      finished := closed && offset == nextOffset;
    }
  }

  // Queue protocol: every transition keeps the channel discipline.

  lemma SafeAfterWrite(t: State, data: Bytes)
    requires QueuesSafe(t)
    ensures QueuesSafe(AfterWrite(t, data))
    ensures AfterWrite(t, data).clients.Keys == t.clients.Keys
  {
    var u := AfterWrite(t, data);
    assert u.clients.Keys == t.clients.Keys;
    assert |u.clients| == |u.clients.Keys| && |t.clients| == |t.clients.Keys|;
  }

  lemma SafeAfterAttach(t: State, client: nat)
    requires QueuesSafe(t) && client !in t.clients && |t.clients| < MAX_CLIENTS
    ensures QueuesSafe(AfterAttach(t, client))
  {
    var u := AfterAttach(t, client);
    assert u.clients.Keys == t.clients.Keys + {client};
    assert |u.clients| == |u.clients.Keys| && |t.clients| == |t.clients.Keys|;
  }

  lemma SafeAfterDetach(t: State, client: nat)
    requires QueuesSafe(t)
    ensures QueuesSafe(AfterDetach(t, client))
  {
  }

  lemma SafeAfterFinish(t: State)
    requires QueuesSafe(t)
    ensures QueuesSafe(AfterFinish(t))
    ensures AfterFinish(t).clients.Keys == t.clients.Keys
  {
    var u := AfterFinish(t);
    assert u.clients.Keys == t.clients.Keys;
    assert |u.clients| == |u.clients.Keys| && |t.clients| == |t.clients.Keys|;
  }

  // What a write does for each reader.

  /** A reader with room gets the chunk as its newest and stays; one whose queue is full keeps
      what it has, is told of its end by the closing of the queue, and is marked; one that was
      dropped before, or has seen the terminal finish, is left as it is. */
  ghost predicate ReaderAfterWrite(before: Client, after: Client, chunk: Frame) {
    if before.active && |before.output.frames| < 16 then
      after.active && !after.output.closed && after.output.frames == before.output.frames + [chunk]
    else if before.active then
      !after.active && after.output.closed && after.output.frames == before.output.frames
    else after == before
  }

  /** A write reaches exactly the readers that have room, and drops exactly those that have
      none; nobody else comes or goes. */
  lemma WriteReachesReaders(t: State, data: Bytes, c: nat)
    requires QueuesSafe(t)
    ensures c in AfterWrite(t, data).clients <==> c in t.clients
    ensures c in t.clients ==>
              ReaderAfterWrite(t.clients[c], AfterWrite(t, data).clients[c], Frame(t.nextOffset, data))
  {
  }

  // Refinement of the unbounded stream.

  /** Writing appends to the stream, whatever was evicted before. */
  lemma WriteRecords(t: State, stream: Bytes, data: Bytes)
    requires QueuesSafe(t) && Records(t, stream) && |stream| + |data| < TWO_TO_THE_64
    ensures Records(AfterWrite(t, data), stream + data)
  {
  }

  /** Attaching answers from the stream: rejected exactly when the cursor is beyond the end,
      a gap exactly when requested bytes were evicted, and otherwise the whole rest of the
      stream from the cursor, or from the oldest byte still held. */
  lemma AttachReadsStream(t: State, stream: Bytes, cursor: Option<uint64>)
    requires Records(t, stream)
    ensures |t.history| <= t.nextOffset
    ensures var oldest := if |stream| <= REPLAY_LIMIT then 0 else |stream| - REPLAY_LIMIT;
            var reply := AttachReply(t, cursor);
            && (reply.CursorAhead? <==> cursor.Some? && cursor.value > |stream|)
            && (reply.TooManyAttachments? <==> !reply.CursorAhead? && |t.clients| >= MAX_CLIENTS)
            && (reply.Attached? ==>
                  && (cursor.None? ==> reply.history.offset == oldest)
                  && (cursor.Some? ==> reply.history.offset == Max(cursor.value, oldest))
                  && reply.history.data == stream[reply.history.offset..]
                  && (reply.gap <==> oldest > if cursor.Some? then cursor.value else 0))
  {
  }
}
