/** Keyboard input cut into messages (sendInput in internal/server/web/src/terminal.js). */
module InputChunks {
  /** A UTF-16 code unit. */
  type Unit = u: nat | u < 0x1_0000

  const CHUNK_LIMIT := 8 * 1024
  const READ_LIMIT := 64 * 1024

  predicate High(u: Unit) { 0xD800 <= u < 0xDC00 }

  predicate Low(u: Unit) { 0xDC00 <= u < 0xE000 }

  /** A cut at k separates the halves of a surrogate pair. */
  predicate Splits(data: seq<Unit>, k: nat) {
    0 < k < |data| && High(data[k - 1]) && Low(data[k])
  }

  /** The messages are data in order, none too long, and no cut splits a pair. */
  predicate Chunking(data: seq<Unit>, messages: seq<seq<Unit>>) {
    if messages == [] then data == []
    else
      var first := messages[0];
      && |first| <= CHUNK_LIMIT && first <= data && !Splits(data, |first|)
      && Chunking(data[|first|..], messages[1..])
  }

  function Join(messages: seq<seq<Unit>>): seq<Unit> {
    if messages == [] then [] else messages[0] + Join(messages[1..])
  }

  /** The longest message that data may begin with. */
  function Cut(data: seq<Unit>): nat {
    if |data| <= CHUNK_LIMIT then |data|
    else if Splits(data, CHUNK_LIMIT) then CHUNK_LIMIT - 1
    else CHUNK_LIMIT
  }

  function Chunks(data: seq<Unit>): seq<seq<Unit>> {
    if data == [] then [] else [data[..Cut(data)]] + Chunks(data[Cut(data)..])
  }

  /** Iteration is by code point: a pair is one character. */
  function Character(rest: seq<Unit>): (n: nat)
    requires rest != []
    ensures 0 < n <= |rest|
  {
    if Splits(rest, 1) then 2 else 1
  }

  /** The messages sent, the chunk begun, and what is still to come. */
  ghost predicate Sent(data: seq<Unit>, messages: seq<seq<Unit>>, chunk: seq<Unit>, rest: seq<Unit>) {
    && |chunk| <= CHUNK_LIMIT && !Splits(chunk + rest, |chunk|)
    && messages + Chunks(chunk + rest) == Chunks(data)
  }

  /** A chunk that takes no further character is the longest that can be sent. */
  lemma FullChunkIsSent(data: seq<Unit>, messages: seq<seq<Unit>>, chunk: seq<Unit>, rest: seq<Unit>)
    requires Sent(data, messages, chunk, rest) && rest != []
    requires |chunk| + Character(rest) > CHUNK_LIMIT
    ensures Sent(data, messages + [chunk], [], rest)
  {
    var all := chunk + rest;
    assert Splits(all, |chunk| + 1) <==> Splits(rest, 1);
    assert Cut(all) == |chunk|;
    assert all[..|chunk|] == chunk && all[|chunk|..] == rest && [] + rest == rest;
    assert messages + ([chunk] + Chunks(rest)) == messages + [chunk] + Chunks(rest);
  }

  lemma CharacterIsTaken(data: seq<Unit>, messages: seq<seq<Unit>>, chunk: seq<Unit>, rest: seq<Unit>)
    requires Sent(data, messages, chunk, rest) && rest != []
    requires |chunk| + Character(rest) <= CHUNK_LIMIT
    ensures Sent(data, messages, chunk + rest[..Character(rest)], rest[Character(rest)..])
  {
    var n := Character(rest);
    assert chunk + rest[..n] + rest[n..] == chunk + rest;
    assert Splits(chunk + rest, |chunk| + n) <==> Splits(rest, n);
  }

  lemma LastChunkIsSent(data: seq<Unit>, messages: seq<seq<Unit>>, chunk: seq<Unit>)
    requires Sent(data, messages, chunk, [])
    ensures Chunks(data) == if chunk == [] then messages else messages + [chunk]
  {
    assert chunk + [] == chunk;
    if chunk != [] {
      assert chunk[..|chunk|] == chunk && chunk[|chunk|..] == [];
      assert Chunks(chunk) == [chunk];
    }
  }

  /** The messages sent to an open connection. */
  method SendInput(data: seq<Unit>) returns (messages: seq<seq<Unit>>)
    ensures messages == Chunks(data)
  {
    messages := [];
    var chunk: seq<Unit>, rest := [], data;
    assert [] + data == data;
    while rest != []
      invariant Sent(data, messages, chunk, rest)
      decreases |rest|
    {
      var n := Character(rest);
      if |chunk| + n > CHUNK_LIMIT {
        FullChunkIsSent(data, messages, chunk, rest);
        messages, chunk := messages + [chunk], [];
      }
      CharacterIsTaken(data, messages, chunk, rest);
      chunk, rest := chunk + rest[..n], rest[n..];
    }
    LastChunkIsSent(data, messages, chunk);
    if chunk != [] {
      messages := messages + [chunk];
    }
  }

  // What the messages are.

  lemma {:induction false} ChunksAreChunking(data: seq<Unit>)
    ensures Chunking(data, Chunks(data))
    ensures forall m <- Chunks(data) :: 0 < |m| <= CHUNK_LIMIT
    decreases |data|
  {
    if data != [] {
      ChunksAreChunking(data[Cut(data)..]);
      assert Chunks(data)[1..] == Chunks(data[Cut(data)..]);
    }
  }

  lemma {:induction false} ChunkingJoins(data: seq<Unit>, messages: seq<seq<Unit>>)
    requires Chunking(data, messages)
    ensures Join(messages) == data
    decreases |messages|
  {
    if messages != [] {
      ChunkingJoins(data[|messages[0]|..], messages[1..]);
    }
  }

  /** No surrogate pair lies across the end of message k. */
  predicate Apart(messages: seq<seq<Unit>>, k: nat)
    requires k + 1 < |messages|
  {
    && messages[k] != [] && messages[k + 1] != []
    && !(High(messages[k][|messages[k]| - 1]) && Low(messages[k + 1][0]))
  }

  /** Nothing typed is lost, repeated or reordered; every message is small enough and not
      empty; neighbouring messages do not share a surrogate pair. */
  lemma InputArrivesWhole(data: seq<Unit>)
    ensures Join(Chunks(data)) == data
    ensures forall m <- Chunks(data) :: 0 < |m| <= CHUNK_LIMIT
    ensures forall k: nat :: k + 1 < |Chunks(data)| ==> Apart(Chunks(data), k)
  {
    ChunksAreChunking(data);
    ChunkingJoins(data, Chunks(data));
    forall k: nat | k + 1 < |Chunks(data)|
      ensures Apart(Chunks(data), k)
    {
      NeighboursAreApart(data, Chunks(data), k);
    }
  }

  lemma {:induction false} NeighboursAreApart(data: seq<Unit>, messages: seq<seq<Unit>>, k: nat)
    requires Chunking(data, messages) && k + 1 < |messages| && messages[k] != [] && messages[k + 1] != []
    ensures Apart(messages, k)
    decreases k
  {
    var first := messages[0];
    if k == 0 {
      var rest := data[|first|..];
      assert messages[1..][0] == messages[1] && messages[1] <= rest;
      assert data[|first|] == rest[0];
    } else {
      NeighboursAreApart(data[|first|..], messages[1..], k - 1);
    }
  }

  // No chunking has fewer messages.

  /** Starting later never needs more messages. */
  lemma {:induction false} LaterNeedsNoMore(data: seq<Unit>, j: nat)
    requires j <= |data| && !Splits(data, j)
    ensures |Chunks(data[j..])| <= |Chunks(data)|
    decreases |data|
  {
    if 0 < j < |data| {
      var c, rest := Cut(data), data[j..];
      if c <= j {
        assert data[c..][j - c..] == rest;
        LaterNeedsNoMore(data[c..], j - c);
      } else {
        assert forall k :: 0 < k <= |rest| ==> (Splits(rest, k) <==> Splits(data, j + k));
        assert c <= j + Cut(rest);
        assert rest[Cut(rest)..] == data[c..][j + Cut(rest) - c..];
        LaterNeedsNoMore(data[c..], j + Cut(rest) - c);
      }
    }
  }

  lemma {:induction false} FewestMessages(data: seq<Unit>, messages: seq<seq<Unit>>)
    requires Chunking(data, messages)
    ensures |Chunks(data)| <= |messages|
    decreases |messages|
  {
    if messages != [] && data != [] {
      FewestMessages(data[|messages[0]|..], messages[1..]);
      ShorterFirstNeedsNoFewer(data, |messages[0]|);
    }
  }

  /** After any first message at least as many are needed as after the longest one. */
  lemma ShorterFirstNeedsNoFewer(data: seq<Unit>, k: nat)
    requires data != [] && k <= |data| && k <= CHUNK_LIMIT && !Splits(data, k)
    ensures |Chunks(data)| <= 1 + |Chunks(data[k..])|
  {
    var c := Cut(data);
    assert k <= c && !Splits(data, c);
    var rest := data[k..];
    assert rest[c - k..] == data[c..];
    if k > 0 {
      assert !Splits(rest, c - k);
      LaterNeedsNoMore(rest, c - k);
    } else {
      assert rest == data;
    }
  }

  // The size of a message on the wire.

  /** The bytes of a string inside JSON quotes, in UTF-8: two for the short escapes, six for
      other control characters and for lone surrogates (section 7 of RFC 8259). */
  function EscapedBytes(data: seq<Unit>): nat {
    if data == [] then 0
    else if Splits(data, 1) then 4 + EscapedBytes(data[2..])
    else UnitBytes(data[0]) + EscapedBytes(data[1..])
  }

  function UnitBytes(u: Unit): nat {
    if u in {0x08, 0x09, 0x0A, 0x0C, 0x0D, 0x22, 0x5C} then 2
    else if u < 0x20 || High(u) || Low(u) then 6
    else if u < 0x80 then 1
    else if u < 0x800 then 2
    else 3
  }

  function MessageBytes(data: seq<Unit>): nat {
    |"{\"type\":\"input\",\"data\":\"\"}"| + EscapedBytes(data)
  }

  lemma {:induction false} EscapedBytesBound(data: seq<Unit>)
    ensures EscapedBytes(data) <= 6 * |data|
    decreases |data|
  {
    if data != [] {
      EscapedBytesBound(if Splits(data, 1) then data[2..] else data[1..]);
    }
  }

  /** No message is refused for its size. */
  lemma MessagesFitReadLimit(data: seq<Unit>)
    ensures forall m <- Chunks(data) :: MessageBytes(m) <= READ_LIMIT
  {
    ChunksAreChunking(data);
    forall m <- Chunks(data)
      ensures MessageBytes(m) <= READ_LIMIT
    {
      EscapedBytesBound(m);
    }
  }
}
