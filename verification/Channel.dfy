/** A connection's outgoing channel (server/client.go): a FIFO of sixteen frames that drops
    what does not fit, filled by the hub and drained by the write pump. */
module Channel {
  import opened Frames

  const CAPACITY := 16

  /** tried: every frame offered while the channel was open; hist: those that found room,
      in order; popped: how many of them the write pump has taken; closes: how often the
      channel was closed. The frames in the buffer are hist[popped..]. */
  datatype Chan = Chan(tried: seq<Frame>, hist: seq<Frame>, popped: nat, closes: nat)

  const NEW_CHAN := Chan([], [], 0, 0)

  predicate Open(ch: Chan) {
    ch.closes == 0
  }

  predicate Bounded(ch: Chan) {
    ch.popped <= |ch.hist| <= ch.popped + CAPACITY
  }

  predicate Valid(ch: Chan) {
    Bounded(ch) && Subsequence(ch.hist, ch.tried)
  }

  predicate Room(ch: Chan) {
    |ch.hist| < ch.popped + CAPACITY
  }

  /** The select in SendEnvelope: enqueue, or drop when full. */
  function Push(ch: Chan, f: Frame): Chan {
    ch.(tried := ch.tried + [f], hist := if Room(ch) then ch.hist + [f] else ch.hist)
  }

  /** The write pump takes up to k frames. */
  function Take(ch: Chan, k: nat): Chan {
    if ch.popped + k <= |ch.hist| then ch.(popped := ch.popped + k)
    else if ch.popped <= |ch.hist| then ch.(popped := |ch.hist|)
    else ch
  }

  function Close(ch: Chan): Chan {
    ch.(closes := ch.closes + 1)
  }

  /** A frame is dropped exactly when sixteen wait; neither case touches anything else. */
  lemma PushIsBuffered(ch: Chan, f: Frame)
    ensures var ch' := Push(ch, f);
      && ch'.tried == ch.tried + [f] && ch'.popped == ch.popped && ch'.closes == ch.closes
      && ch'.hist == if |ch.hist| - ch.popped < 16 then ch.hist + [f] else ch.hist
  {
  }

  /** The write pump takes k frames, or all that wait. */
  lemma TakeIsBounded(ch: Chan, k: nat)
    requires Bounded(ch)
    ensures var ch', waiting := Take(ch, k), |ch.hist| - ch.popped;
      && ch'.tried == ch.tried && ch'.hist == ch.hist && ch'.closes == ch.closes
      && ch'.popped - ch.popped == if k < waiting then k else waiting
  {
  }

  /** From ch to ch' the frames of fs were offered, in this order. However little the write
      pump took, as many of them found room as slots were free before. */
  ghost predicate Receives(ch: Chan, ch': Chan, fs: seq<Frame>) {
    && ch'.tried == ch.tried + fs && ch'.closes == ch.closes && ch.popped <= ch'.popped
    && ch.hist <= ch'.hist && |ch'.hist| <= |ch.hist| + |fs|
    && (forall i :: |ch.hist| <= i < |ch'.hist| ==> ch'.hist[i] in fs)
    && (forall n :: 0 <= n <= |fs| && |ch.hist| - ch.popped + n <= 16 ==> ch.hist + fs[..n] <= ch'.hist)
  }

  lemma ReceivesNothing(ch: Chan, k: nat)
    ensures Receives(ch, Take(ch, k), [])
  {
  }

  lemma ReceivesOne(ch: Chan, f: Frame)
    ensures Receives(ch, Push(ch, f), [f])
  {
    assert [f][..0] == [] && [f][..1] == [f];
  }

  lemma ReceivesMore(ch: Chan, ch1: Chan, fs: seq<Frame>, k: nat, f: Frame)
    requires Receives(ch, ch1, fs)
    ensures Receives(ch, Push(Take(ch1, k), f), fs + [f])
  {
    var ch' := Push(Take(ch1, k), f);
    forall n | 0 <= n <= |fs| + 1 && |ch.hist| - ch.popped + n <= 16 ensures ch.hist + (fs + [f])[..n] <= ch'.hist {
      if n <= |fs| {
        assert (fs + [f])[..n] == fs[..n];
      } else {
        assert fs[..|fs|] == fs && (fs + [f])[..n] == fs + [f];
        assert ch1.hist == ch.hist + fs;
      }
    }
  }

  /** Sixteen turns of the write pump put everything that found room on the wire. */
  lemma SixteenTurnsEmpty(ch: Chan)
    requires Bounded(ch)
    ensures Take(ch, 16).popped == |ch.hist| && Take(ch, 16).hist == ch.hist
  {
  }

  lemma PushKeepsValid(ch: Chan, f: Frame)
    requires Valid(ch)
    ensures Valid(Push(ch, f))
  {
    SubsequenceTake(ch.hist, ch.tried, f);
    SubsequenceSkip(ch.hist, ch.tried, f);
  }

  /** What the write pump has put on the wire is always a subsequence, in order, of what
      the hub tried to send, and at most sixteen frames wait. */
  lemma WrittenIsSubsequence(ch: Chan)
    requires Valid(ch)
    ensures Subsequence(ch.hist[..ch.popped], ch.tried) && |ch.hist[ch.popped..]| <= CAPACITY
  {
    SubsequencePrefix(ch.hist, ch.tried, ch.popped);
  }
}
