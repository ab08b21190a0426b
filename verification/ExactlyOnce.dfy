/** What holds in every run of the delivery system, whatever the other clients do and
    whenever connections break. */
module ExactlyOnce {
  import opened Wrappers
  import opened Words
  import opened Terminal
  import opened Stream
  import opened FlowControl
  import opened Session
  import opened Browser
  import opened Delivery

  lemma {:induction false} AlwaysGood(states: seq<System>, steps: seq<Step>, i: nat)
    requires Run(states, steps) && i < |states|
    ensures Inv(states[i]) && Sound(states[i])
    decreases i
  {
    if i == 0 {
      StartIsGood();
    } else {
      AlwaysGood(states, steps, i - 1);
      assert Steps(states[i - 1], steps[i - 1], states[i]);
      StepKeepsInv(states[i - 1], steps[i - 1], states[i]);
    }
    InvIsSound(states[i]);
  }

  /** Exactly once, in order: what the browser has on its screen or queued for it is one
      contiguous slice of the harness output, from base to the last byte it received. */
  lemma ScreenIsOneSlice(states: seq<System>, steps: seq<Step>, i: nat)
    requires Run(states, steps) && i < |states|
    ensures var s := states[i];
            if s.browser.rendered.None? then s.browser.screen == [] && s.browser.queued == []
            else
              && s.base <= s.browser.rendered.value <= Written(s.browser) <= |s.stream|
              && s.browser.screen == s.stream[s.base..s.browser.rendered.value]
              && s.browser.screen + Payload(s.browser.queued) == s.stream[s.base..Written(s.browser)]
              && (s.browser.socket.Open? && s.browser.socket.received.Some? ==>
                    s.browser.socket.received.value == Written(s.browser))
  {
    AlwaysGood(states, steps, i);
    var s := states[i];
    if s.browser.rendered.Some? {
      PayloadIsSlice(s.stream, s.browser.queued, s.browser.rendered.value, Written(s.browser));
    }
  }

  predicate AnnouncesGap(message: Message, offset: nat) {
    message.Replay? && message.gap && message.offset == offset
  }

  /** The screen only ever grows, except that a replay which announces a gap clears it. Such
      a gap is real: bytes the browser had not rendered are no longer available. */
  lemma ScreenShrinksOnlyOnGap(states: seq<System>, steps: seq<Step>, i: nat)
    requires Run(states, steps) && i < |steps|
    ensures var s, t := states[i], states[i + 1];
            || (t.base == s.base && s.browser.screen <= t.browser.screen)
            || (&& steps[i] == Receive && Allowed(s, Receive)
                && AnnouncesGap(Pending(s.sessions[s.connection], s.browser.socket.received, s.taken).value, t.base)
                && t.browser.screen == []
                && t.base > if s.browser.rendered.Some? then s.browser.rendered.value else 0)
    ensures states[i].stream <= states[i + 1].stream
  {
    AlwaysGood(states, steps, i);
    assert Steps(states[i], steps[i], states[i + 1]);
    if steps[i].Receive? {
      ReceiveGrowsScreen(states[i]);
    }
  }

  lemma ReceiveGrowsScreen(s: System)
    requires Inv(s) && Allowed(s, Receive)
    ensures var t := AfterReceive(s);
            var message := Pending(s.sessions[s.connection], s.browser.socket.received, s.taken).value;
            if AnnouncesGap(message, t.base) then
              && t.browser.screen == []
              && t.base > if s.browser.rendered.Some? then s.browser.rendered.value else 0
            else t.base == s.base && t.browser.screen == s.browser.screen
  {
  }

  /** A browser dials only when everything it received is rendered, so its cursor is exactly
      what it has written to its screen. */
  lemma DialsFromWritten(states: seq<System>, steps: seq<Step>, i: nat)
    requires Run(states, steps) && i < |states| && states[i].browser.socket.Connecting?
    ensures var b := states[i].browser;
            && b.socket.cursor == b.rendered
            && b.queued == [] && b.stale == 0
            && (b.rendered.Some? ==> b.rendered.value == Written(b))
  {
    AlwaysGood(states, steps, i);
  }

  /** The cursor of a reconnecting browser is never refused as ahead of the output. */
  lemma CursorNeverAhead(states: seq<System>, steps: seq<Step>, i: nat)
    requires Run(states, steps) && i < |states| && states[i].browser.socket.Connecting?
    ensures Sound(states[i])
    ensures var cursor := states[i].browser.socket.cursor;
            && (cursor.Some? ==> cursor.value < TWO_TO_THE_64)
            && !AttachReply(states[i].terminal, cursor).CursorAhead?
  {
    AlwaysGood(states, steps, i);
  }

  /** The browser's offset check never closes a connection to this server. */
  lemma OffsetsAlwaysMatch(states: seq<System>, steps: seq<Step>, i: nat)
    requires Run(states, steps) && i < |steps| && steps[i] == Receive
    ensures states[i + 1].browser.socket.Open?
  {
    AlwaysGood(states, steps, i);
    var s := states[i];
    assert Steps(s, steps[i], states[i + 1]);
    if Pending(s.sessions[s.connection], s.browser.socket.received, s.taken).value.Binary? {
      BinaryKeepsGood(s);
    }
  }

  /** No connection of the browser is ever ended for an invalid acknowledgment. */
  lemma OwnAcksNeverRefused(states: seq<System>, steps: seq<Step>, i: nat, c: nat)
    requires Run(states, steps) && i < |steps| && steps[i] == Serve(c, HandleAck)
    requires c in states[i].sessions && states[i].sessions[c].mine
    ensures c in states[i + 1].sessions && states[i + 1].sessions[c].phase.Sending?
  {
    AlwaysGood(states, steps, i);
    assert Steps(states[i], steps[i], states[i + 1]);
    OwnAckAccepted(states[i].terminal.clients[c], states[i].sessions[c]);
  }

  /** Acknowledgments are checked, whoever sends them: a number from the network that is no
      64-bit word ends its connection, and one that is handled moves the window there if it lies
      between what is acknowledged and what was sent, and ends the connection otherwise. */
  lemma AcksAreChecked(states: seq<System>, steps: seq<Step>, i: nat, c: nat)
    requires Run(states, steps) && i < |steps| && c in states[i].sessions
    ensures steps[i] == Serve(c, ReadAck) || steps[i] == Serve(c, HandleAck) ==> c in states[i + 1].sessions
    ensures steps[i] == Serve(c, ReadAck) ==>
              var x, y := states[i].sessions[c], states[i + 1].sessions[c];
              && x.inflight != [] && y.window == x.window
              && (y.phase.Sending? <==> x.inflight[0] < 0x1_0000_0000_0000_0000)
              && (y.phase.Sending? ==> y.acks == x.acks + [x.inflight[0]] && y.inflight == x.inflight[1..])
    ensures steps[i] == Serve(c, HandleAck) ==>
              var x, y := states[i].sessions[c], states[i + 1].sessions[c];
              && x.acks != []
              && (y.phase.Sending? <==> x.window.acked <= x.acks[0] <= x.window.sent)
              && (y.phase.Sending? ==> y.window.acked == x.acks[0] && y.window.sent == x.window.sent)
  {
    assert Steps(states[i], steps[i], states[i + 1]);
  }

  /** Every byte that is on the page's screen is acknowledged: the last acknowledgment on its way
      to the sender, or the one in force if none is, is exactly what the page has rendered. */
  lemma RenderedIsAcknowledged(states: seq<System>, steps: seq<Step>, i: nat)
    requires Run(states, steps) && i < |states|
    requires states[i].browser.socket.Open? && states[i].browser.socket.received.Some?
    ensures states[i].connection in states[i].sessions && states[i].browser.rendered.Some?
    ensures var x := states[i].sessions[states[i].connection];
            x.phase.Sending? ==> Latest(x.acks + x.inflight, x.window.acked) == states[i].browser.rendered.value
  {
    AlwaysGood(states, steps, i);
  }

  /** A page that keeps up never holds its sender: when it has received and rendered all that
      was sent, and its acknowledgments have been handled, nothing is outstanding, and a frame
      of at most 128 KiB goes out without waiting. */
  lemma CaughtUpNeverWaits(states: seq<System>, steps: seq<Step>, i: nat)
    requires Run(states, steps) && i < |states|
    requires states[i].browser.socket.Open? && states[i].browser.socket.received.Some?
    requires states[i].browser.queued == []
    ensures states[i].connection in states[i].sessions
    ensures var x := states[i].sessions[states[i].connection];
            x.phase.Sending? && x.acks == [] && x.inflight == [] && states[i].taken == |x.frames| ==>
              && x.window.acked == x.window.sent
              && (Wanted(x).Some? && |Wanted(x).value.data| <= 128 * 1024 ==> !MustWait(x))
  {
    AlwaysGood(states, steps, i);
    var s := states[i];
    var x := s.sessions[s.connection];
    assert Good(s.stream, s.terminal.closed, ClientOf(s.terminal, s.connection), x);
    if x.phase.Sending? && x.acks == [] && x.inflight == [] && s.taken == |x.frames| {
      CaughtUpIsAcknowledged(s.browser, x, s.taken);
      FrameFits(s.stream, x, s.terminal.clients[s.connection]);
    }
  }

  lemma CaughtUpIsAcknowledged(b: View, x: Session, taken: nat)
    requires Linked(b, x, taken) && b.socket.received.Some? && b.queued == [] && taken == |x.frames|
    requires x.phase.Sending? && x.acks == [] && x.inflight == []
    ensures x.window.acked == Reach(x.frames, x.start)
  {
    assert x.frames[..taken] == x.frames && x.acks + x.inflight == [];
  }

  lemma FrameFits(stream: Bytes, x: Session, client: Client)
    requires |stream| < TWO_TO_THE_64 && Feeding(stream, x, client) && x.window.acked == x.window.sent
    ensures Wanted(x).Some? && |Wanted(x).value.data| <= 128 * 1024 ==> !MustWait(x)
  {
    if Wanted(x).Some? {
      WantedFits(stream, x, client.output.frames);
      NoWrap(x.window, Wanted(x).value.End());
    }
  }

  /** The end message is always believed, at the end of all output. */
  lemma EndIsBelieved(states: seq<System>, steps: seq<Step>, i: nat)
    requires Run(states, steps) && i < |steps| && steps[i] == Receive
    ensures var s, t := states[i], states[i + 1];
            && Allowed(s, Receive)
            && (Pending(s.sessions[s.connection], s.browser.socket.received, s.taken).value.End? ==>
                  && t.browser.outputComplete && s.terminal.closed
                  && s.browser.socket.received == Some(|s.stream|))
  {
    AlwaysGood(states, steps, i);
    var s := states[i];
    assert Steps(s, steps[i], states[i + 1]);
    var x := s.sessions[s.connection];
    assert Good(s.stream, s.terminal.closed, ClientOf(s.terminal, s.connection), x);
    if Pending(x, s.browser.socket.received, s.taken).value.End? {
      assert x.frames[..s.taken] == x.frames;
    }
  }

  /** Every attachment, observed or not: acknowledged bytes were sent, at most 128 KiB are
      outstanding, and channels are never misused. */
  lemma FlowControlled(states: seq<System>, steps: seq<Step>, i: nat, c: nat)
    requires Run(states, steps) && i < |states| && c in states[i].sessions
    ensures var w := states[i].sessions[c].window;
            w.acked <= w.sent && w.sent - w.acked <= 131072
    ensures QueuesSafe(states[i].terminal) && |states[i].terminal.clients| <= 16
    ensures !states[i].sessions[c].phase.Finished? ==> c in states[i].terminal.clients
  {
    AlwaysGood(states, steps, i);
    assert Good(states[i].stream, states[i].terminal.closed, ClientOf(states[i].terminal, c), states[i].sessions[c]);
  }

  /** What becomes of the registration of an attachment in a step, exactly: it begins empty, and
      open unless the terminal has finished; a write adds its chunk as long as there are fewer
      than 16; it is closed only by a write that finds it full and by the end of the output;
      only its own sender takes from it, one chunk at a time from the front; and it goes only
      when its handler has finished. */
  lemma RegistrationsChangeExactly(states: seq<System>, steps: seq<Step>, i: nat, c: nat)
    requires Run(states, steps) && i < |steps|
    ensures RegistrationFollows(states[i], steps[i], c, states[i + 1])
    ensures states[i + 1].terminal.closed <==> states[i].terminal.closed || steps[i].FinishOutput?
  {
    AlwaysGood(states, steps, i);
    assert Steps(states[i], steps[i], states[i + 1]);
    StepChangesRegistration(states[i], steps[i], c);
  }

  lemma StepChangesRegistration(s: System, step: Step, c: nat)
    requires Sound(s) && Allowed(s, step) && s.terminal.clients.Keys <= s.sessions.Keys
    ensures RegistrationFollows(s, step, c, After(s, step))
    ensures After(s, step).terminal.closed <==> s.terminal.closed || step.FinishOutput?
  {
    match step
    case WriteOutput(data) => WriteReachesReaders(s.terminal, data, c);
    case Serve(d, act) => ServeChangesRegistration(s, d, act, c);
    case FinishOutput =>
    case AcceptOther(_, _) =>
    case AcceptBrowser(_) =>
    case OtherAck(_, _) =>
    case Detach(_) =>
    case Dial =>
    case Receive =>
    case Render =>
    case Disconnect =>
    case Settle =>
    case Exit =>
  }

  lemma ServeChangesRegistration(s: System, d: nat, act: Act, c: nat)
    requires Allowed(s, Serve(d, act))
    ensures RegistrationFollows(s, Serve(d, act), c, AfterServe(s, d, act))
  {
  }

  ghost predicate RegistrationFollows(s: System, step: Step, c: nat, t: System) {
    if c in s.terminal.clients then
      if step == Detach(c) then
        c !in t.terminal.clients && c in s.sessions && s.sessions[c].phase.Finished?
      else
        c in t.terminal.clients && ClientFollows(s, step, s.terminal.clients[c], c, t.terminal.clients[c])
    else if c in t.terminal.clients then
      && (step == AcceptBrowser(c) || (step.AcceptOther? && step.c == c))
      && t.terminal.clients[c] == Client(Queue([], s.terminal.closed), !s.terminal.closed)
    else true
  }

  ghost predicate ClientFollows(s: System, step: Step, before: Client, c: nat, after: Client) {
    if step.WriteOutput? then ReaderAfterWrite(before, after, Frame(s.terminal.nextOffset, step.data))
    else if step.FinishOutput? then
      !after.active && after.output == Queue(before.output.frames, true)
    else if step == Serve(c, TakeChunk) then
      && after.active == before.active && after.output.closed == before.output.closed
      && before.output.frames != [] && after.output.frames == before.output.frames[1..]
    else after == before
  }

  /** A reader misses output only if it had been dropped before, or was found with 16 chunks
      waiting. */
  lemma OnlySlowReadersMiss(states: seq<System>, steps: seq<Step>, i: nat, c: nat)
    requires Run(states, steps) && i < |steps| && c in states[i].sessions && !states[i].sessions[c].missed
    requires c in states[i + 1].sessions && states[i + 1].sessions[c].missed
    ensures steps[i].WriteOutput? && steps[i].data != []
    ensures c in states[i].terminal.clients ==>
              var client := states[i].terminal.clients[c];
              !client.active || |client.output.frames| == 16
  {
    AlwaysGood(states, steps, i);
    assert Steps(states[i], steps[i], states[i + 1]);
    if steps[i].WriteOutput? {
      WriteReachesReaders(states[i].terminal, steps[i].data, c);
      assert states[i + 1] == AfterWriteOutput(states[i], steps[i].data);
    } else {
      OnlyWritesAreMissed(states[i], steps[i], c);
    }
  }

  lemma OnlyWritesAreMissed(s: System, step: Step, c: nat)
    requires Sound(s) && Allowed(s, step) && !step.WriteOutput? && c in s.sessions && !s.sessions[c].missed
    ensures c in After(s, step).sessions && !After(s, step).sessions[c].missed
  {
    match step
    case Serve(d, act) =>
      var x := s.sessions[d];
      ActMissesNothing(x, s.terminal.clients[d].output, FinishedAt(s.terminal, x.window.sent), act);
    case AcceptOther(_, _) =>
    case AcceptBrowser(_) =>
    case FinishOutput =>
    case OtherAck(_, _) =>
    case Detach(_) =>
    case Dial =>
    case Receive =>
    case Render =>
    case Disconnect =>
    case Settle =>
    case Exit =>
  }

  lemma ActMissesNothing(x: Session, queue: Queue, finished: bool, act: Act)
    requires Enabled(x, queue, act)
    ensures AfterAct(x, queue, finished, act).missed == x.missed
  {
  }

  /** The sender slice invariant: bytes sent, then bytes held, then queued chunks are one slice
      of the stream, up to its end unless a chunk was missed. */
  lemma SenderSlice(states: seq<System>, steps: seq<Step>, i: nat, c: nat)
    requires Run(states, steps) && i < |states| && c in states[i].sessions
    requires !states[i].sessions[c].phase.Finished?
    ensures c in states[i].terminal.clients
    ensures var s, x, client := states[i], states[i].sessions[c], states[i].terminal.clients[c];
            var unsent := Unsent(x, client.output.frames);
            var cut := Reach(unsent, x.window.sent);
            && x.start <= x.window.sent <= cut <= |s.stream|
            && Payload(x.frames) == s.stream[x.start..x.window.sent]
            && Payload(x.frames) + Payload(unsent) == s.stream[x.start..cut]
            && (client.active ==> cut == |s.stream|)
            && (x.missed <==> cut < |s.stream|)
  {
    AlwaysGood(states, steps, i);
    var s, x := states[i], states[i].sessions[c];
    assert Good(s.stream, s.terminal.closed, ClientOf(s.terminal, c), x);
    var unsent := Unsent(x, s.terminal.clients[c].output.frames);
    PayloadIsSlice(s.stream, x.frames, x.start, x.window.sent);
    PayloadIsSlice(s.stream, unsent, x.window.sent, Reach(unsent, x.window.sent));
  }

  /** The end marker is exact: a sender that drains its closed queue announces the end if and
      only if the terminal has finished and this reader missed nothing, and then it has sent
      every byte from its start to the end of the stream. */
  lemma EndMarkerExact(states: seq<System>, steps: seq<Step>, i: nat, c: nat)
    requires Run(states, steps) && i < |steps| && steps[i] == Serve(c, Drain(Sent))
    ensures c in states[i].sessions && c in states[i + 1].sessions
    ensures var s, x, y := states[i], states[i].sessions[c], states[i + 1].sessions[c];
            && (y.ended.Some? <==> s.terminal.closed && !x.missed)
            && (y.ended.Some? ==> y.ended.value == |s.stream| && x.start <= |s.stream|
                                  && Payload(y.frames) == s.stream[x.start..])
  {
    assert Steps(states[i], steps[i], states[i + 1]);
    AlwaysGood(states, steps, i);
    SenderSlice(states, steps, i, c);
    var s, x := states[i], states[i].sessions[c];
    assert Unsent(x, s.terminal.clients[c].output.frames) == [];
  }

  /** A browser that was told the output is complete has it all, and nothing will follow. */
  lemma CompleteIsWhole(states: seq<System>, steps: seq<Step>, i: nat, j: nat)
    requires Run(states, steps) && i <= j < |states| && states[i].browser.outputComplete
    ensures states[j].stream == states[i].stream && states[j].terminal.closed
    ensures var s := states[j];
            && s.base <= |s.stream|
            && s.browser.screen + Payload(s.browser.queued) == s.stream[s.base..]
  {
    StillComplete(states, steps, i, j);
    AlwaysGood(states, steps, j);
    ScreenIsOneSlice(states, steps, j);
  }

  lemma {:induction false} StillComplete(states: seq<System>, steps: seq<Step>, i: nat, j: nat)
    requires Run(states, steps) && i <= j < |states| && states[i].browser.outputComplete
    ensures states[j].browser.outputComplete && states[j].stream == states[i].stream
    decreases j
  {
    if i < j {
      StillComplete(states, steps, i, j - 1);
      CompleteNext(states, steps, j - 1);
    }
  }

  lemma CompleteNext(states: seq<System>, steps: seq<Step>, i: nat)
    requires Run(states, steps) && i < |steps| && states[i].browser.outputComplete
    ensures states[i + 1].browser.outputComplete && states[i + 1].stream == states[i].stream
  {
    AlwaysGood(states, steps, i);
    assert Steps(states[i], steps[i], states[i + 1]);
    StepKeepsComplete(states[i], steps[i]);
  }

  lemma StepKeepsComplete(s: System, step: Step)
    requires Sound(s) && Allowed(s, step) && s.terminal.closed && s.browser.outputComplete
    ensures After(s, step).browser.outputComplete && After(s, step).stream == s.stream
  {
  }
}
