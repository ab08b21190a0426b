/** A page that stays open gets everything: from every reachable state, however its connections
    stand, reconnecting and going on brings all output that is still held to its screen
    (internal/server/web/src/terminal.js, internal/wrapper/websocket.go). */
module DeliveryProgress {
  import opened Wrappers
  import opened Terminal
  import opened Session
  import opened Browser
  import opened Delivery
  import opened ConnectionProgress
  import ExactlyOnce

  // The old connection is given up.

  /** The page has no connection and nothing left to render, and may dial. */
  predicate Resting(b: View) {
    b.socket.Idle? && b.queued == []
  }

  ghost predicate OnlyPage(s: System, t: System) {
    t.sessions == s.sessions && t.terminal == s.terminal
  }

  lemma {:induction false} RendersRest(t: Trace) returns (u: Trace)
    requires t.Valid() && Inv(t.at) && t.at.browser.socket.Closed?
    ensures GoesOn(t, u) && u.at.browser.socket.Closed? && u.at.browser.queued == [] && OnlyPage(t.at, u.at)
    decreases |t.at.browser.queued|
  {
    u := t;
    if t.at.browser.queued != [] {
      u := Take(t, Render);
      u := RendersRest(u);
    }
  }

  lemma HangsUp(t: Trace) returns (u: Trace)
    requires t.Valid() && Inv(t.at)
    ensures GoesOn(t, u) && Resting(u.at.browser) && OnlyPage(t.at, u.at)
  {
    u := Take(t, Disconnect);
    if u.at.browser.socket.Closed? {
      u := RendersRest(u);
      u := Take(u, Settle);
    }
  }

  lemma CompleteShowsAll(s: System)
    requires Inv(s) && Resting(s.browser) && s.browser.outputComplete
    ensures ShowsAll(s)
  {
    assert s.stream[s.base..] == s.stream[s.base..|s.stream|];
  }

  // A place among the attachments.

  lemma RemovalMakesRoom(clients: map<nat, Client>, c: nat)
    requires c in clients
    ensures |clients - {c}| < |clients|
  {
    assert (clients - {c}).Keys == clients.Keys - {c};
    assert |(clients - {c}).Keys| < |clients.Keys|;
  }

  lemma Leaves(t: Trace, c: nat) returns (u: Trace)
    requires t.Valid() && Inv(t.at) && Resting(t.at.browser) && c in t.at.terminal.clients
    ensures GoesOn(t, u) && u.at.browser == t.at.browser
    ensures u.at.terminal.clients.Keys == t.at.terminal.clients.Keys && c in u.at.sessions
    ensures u.at.sessions[c].phase.Finished?
  {
    u := t;
    if !t.at.sessions[c].phase.Finished? {
      u := Take(t, Serve(c, Abort));
    }
  }

  /** Where all places are taken, one of the readers leaves. */
  lemma HasPlace(t: Trace) returns (u: Trace)
    requires t.Valid() && Inv(t.at) && Resting(t.at.browser)
    ensures GoesOn(t, u) && u.at.browser == t.at.browser && |u.at.terminal.clients| < MAX_CLIENTS
    ensures |t.at.terminal.clients| < MAX_CLIENTS ==> u == t
  {
    u := t;
    if |t.at.terminal.clients| >= MAX_CLIENTS {
      var c :| c in t.at.terminal.clients;
      var left := Leaves(t, c);
      assert |left.at.terminal.clients| == |left.at.terminal.clients.Keys| == |t.at.terminal.clients.Keys|;
      u := Take(left, Detach(c));
      RemovalMakesRoom(left.at.terminal.clients, c);
    }
  }

  // The new connection.

  /** All other connections stand as they did. */
  ghost predicate OthersStand(s: System, t: System) {
    forall c <- s.sessions ::
      c in t.sessions && t.sessions[c] == s.sessions[c] && ClientOf(t.terminal, c) == ClientOf(s.terminal, c)
  }

  lemma Accepts(t: Trace, c: nat) returns (u: Trace)
    requires t.Valid() && Inv(t.at) && t.at.browser.socket.Connecting?
    requires c !in t.at.sessions && |t.at.terminal.clients| < MAX_CLIENTS
    ensures GoesOn(t, u)
    ensures var cursor := t.at.browser.socket.cursor;
            && cursor == t.at.browser.rendered
            && AttachReply(t.at.terminal, cursor).Attached?
            && var reply := AttachReply(t.at.terminal, cursor);
               u.at == AfterAccept(t.at, c, true, reply.history, reply.gap)
                         .(browser := t.at.browser.(socket := Open(None)), connection := c, taken := 0)
  {
    u := Take(t, AcceptBrowser(c));
  }

  lemma Dials(t: Trace) returns (u: Trace)
    requires t.Valid() && Inv(t.at) && Resting(t.at.browser) && MayConnect(t.at.browser)
    requires |t.at.terminal.clients| < MAX_CLIENTS
    ensures GoesOn(t, u) && Follows(u.at) && OthersStand(t.at, u.at) && u.at.connection !in t.at.sessions
  {
    var c := FreshNumber(t.at.sessions.Keys);
    var dialed := Take(t, Dial);
    u := Accepts(dialed, c);
  }

  lemma OthersStandStill(s: System, t: System, u: System)
    requires OthersStand(s, t) && OnlyConnection(t, u) && t.connection !in s.sessions
    ensures OthersStand(s, u)
  {
  }

  /** A page without a connection, and with a place to have. */
  lemma RestingShowsAll(t: Trace) returns (u: Trace)
    requires t.Valid() && Inv(t.at) && Resting(t.at.browser) && MayConnect(t.at.browser)
    requires |t.at.terminal.clients| < MAX_CLIENTS
    ensures GoesOn(t, u) && ShowsAll(u.at) && OthersStand(t.at, u.at)
  {
    var attached := Dials(t);
    u := FollowerShowsAll(attached);
    OthersStandStill(t.at, attached.at, u.at);
  }

  /** From every reachable state with a page that is still there, reconnecting brings the page to
      where its screen holds all output from base to the last byte written, and where it knows
      that the output is complete if and only if it is. No other connection has to do anything,
      except that one leaves if all 16 places are taken. */
  lemma PageCanShowAll(states: seq<System>, steps: seq<Step>, i: nat) returns (t: Trace)
    requires Run(states, steps) && i < |states| && !states[i].browser.exited
    ensures t.Valid() && t.begin == states[i] && t.at.stream == states[i].stream
    ensures ShowsAll(t.at)
    ensures |states[i].terminal.clients| < 16 ==> OthersStand(states[i], t.at)
  {
    ExactlyOnce.AlwaysGood(states, steps, i);
    t := HangsUp(Trace(states[i], [], [states[i]], states[i]));
    if t.at.browser.outputComplete {
      CompleteShowsAll(t.at);
    } else {
      t := HasPlace(t);
      t := RestingShowsAll(t);
    }
  }
}
