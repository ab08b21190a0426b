/** The acknowledgment window of one connection and the pieces saved output is sent in
    (internal/wrapper/websocket.go). */
module FlowControl {
  import opened Wrappers
  import opened Words
  import opened Terminal
  import opened Stream

  const BUDGET: nat := 128 * 1024
  const PIECE: nat := 32 * 1024

  /** The two counters of sendOutput. */
  datatype Window = Window(acked: uint64, sent: uint64) {
    ghost predicate Safe() {
      acked <= sent <= acked + BUDGET
    }

    /** Acknowledgments may not move backward or past what was sent. */
    function Acknowledge(offset: nat): Option<Window> {
      if offset < acked || offset > sent then None else Some(Window(offset, sent))
    }

    /** The guard of the wait, in the unsigned arithmetic of the source. */
    predicate Blocked(end: uint64) {
      Sub64(end, acked) > BUDGET
    }
  }

  /** Saved output is sent in pieces: the next one, and what is left after it. */
  function Piece(saved: Frame): Frame {
    Frame(saved.offset, saved.data[..Min(|saved.data|, PIECE)])
  }

  function AfterPiece(saved: Frame): Frame {
    Frame(Add64(saved.offset, |Piece(saved).data|), saved.data[|Piece(saved).data|..])
  }

  lemma SplitHolds(stream: Bytes, whole: Frame)
    requires |stream| < TWO_TO_THE_64 && Holds(stream, whole)
    ensures Holds(stream, Piece(whole)) && Holds(stream, AfterPiece(whole))
    ensures Piece(whole).End() == AfterPiece(whole).offset && AfterPiece(whole).End() == whole.End()
  {
  }

  /** The unsigned subtraction of the wait never wraps in a safe window. */
  lemma NoWrap(w: Window, end: uint64)
    requires w.Safe() && w.sent <= end
    ensures w.Blocked(end) <==> end > w.acked + BUDGET
  {
  }

  /** Exactly the frames of at most 128 KiB can be sent: a reader that has acknowledged
      everything lets them through at once, and for a longer frame no acknowledgment helps. */
  lemma SendableIffWithinBudget(w: Window, frame: Frame)
    requires w.Safe() && frame.offset == w.sent && frame.End() < TWO_TO_THE_64
    ensures (exists offset: uint64 ::
               w.Acknowledge(offset).Some? && !w.Acknowledge(offset).value.Blocked(frame.End()))
            <==> |frame.data| <= BUDGET
    ensures w.acked == w.sent && |frame.data| <= BUDGET ==> !w.Blocked(frame.End())
  {
    if |frame.data| <= BUDGET {
      assert w.Acknowledge(w.sent) == Some(Window(w.sent, w.sent));
    }
  }
}
