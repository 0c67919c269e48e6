/** ACK checks nothing: whoever knows an id can acknowledge the message away. What the
    recipients may rely on when everybody acknowledges only what they were sent, and a run
    in which somebody does not. */
module Acks {
  import opened Ids
  import opened Frames
  import opened Channel
  import opened Relay
  import opened Steps
  import opened Invariants
  import opened Guarantees
  import opened Crashes
  import Tables
  import Ledger

  /** A DELIVER of mid has been put on the wire. */
  ghost predicate Sent(ch: Chan, mid: string) {
    exists i :: 0 <= i < ch.popped && i < |ch.hist| && ch.hist[i].Deliver? && ch.hist[i].mid == mid
  }

  /** Who acknowledges in step s was sent the message. */
  ghost predicate Honest(p: Process, s: Step) {
    (s.Incoming? || s.Die?) && Command(s).Some? && Command(s).value.kind == ACK ==>
      s.c < |p.hub.chans| && Sent(p.hub.chans[s.c], Command(s).value.mid)
  }

  ghost predicate RunsHonestly(p: Process, ss: seq<Step>, p': Process)
    decreases ss
  {
    if ss == [] then p' == p
    else Enabled(p, ss[0]) && Honest(p, ss[0]) && RunsHonestly(Apply(p, ss[0]), ss[1..], p')
  }

  ghost predicate SentToSomebody(p: Process, mid: string) {
    exists c: Conn :: c < |p.hub.chans| && Sent(p.hub.chans[c], mid)
  }

  // ---- what was sent stays sent ----

  ghost predicate Later(ch: Chan, ch': Chan) {
    ch.hist <= ch'.hist && ch.popped <= ch'.popped
  }

  ghost predicate AllLater(h: Hub, g: Hub) {
    |h.chans| <= |g.chans| && forall c: Conn :: c < |h.chans| ==> Later(h.chans[c], g.chans[c])
  }

  ghost predicate AllBounded(h: Hub) {
    forall c: Conn :: c < |h.chans| ==> Bounded(h.chans[c])
  }

  lemma {:induction false} ReplayLater(ch: Chan, qid: string, rows: seq<Tables.Row>, o: Oracle, n: nat)
    requires n <= |rows| && Bounded(ch)
    ensures Later(ch, Replay(ch, qid, rows, o, n)) && Bounded(Replay(ch, qid, rows, o, n))
  {
    if n > 0 { ReplayLater(ch, qid, rows, o, n - 1); }
  }

  lemma OneLater(h: Hub, c: Conn, ch: Chan)
    requires c < |h.chans| && Later(h.chans[c], ch)
    ensures AllLater(h, h.(chans := h.chans[c := ch]))
  {
  }

  lemma AnsweredLater(h: Hub, c: Conn, qid: string, o: Oracle, n: nat)
    requires c < |h.chans| && Bounded(h.chans[c]) && n <= |ReplayRows(h.vault, qid, o)|
    ensures AllLater(h, Answered(h, c, qid, o, n))
  {
    ReplayLater(Push(h.chans[c], SubOk(qid)), qid, ReplayRows(h.vault, qid, o), o, n);
    OneLater(h, c, Replay(Push(h.chans[c], SubOk(qid)), qid, ReplayRows(h.vault, qid, o), o, n));
  }

  lemma TakePlaceLater(h: Hub, c: Conn, qid: string)
    requires Known(h, Cached(h, qid).sub) && AllBounded(h)
    ensures AllLater(h, TakePlace(h, c, qid)) && AllBounded(TakePlace(h, c, qid))
  {
  }

  lemma SubLater(h: Hub, c: Conn, qid: string, now: int, o: Oracle)
    requires c < |h.chans| && Known(h, Cached(h, qid).sub) && AllBounded(h)
    ensures AllLater(h, HandleSub(h, c, qid, now, o).hub)
  {
    if !Refuses(h, c, qid, o) {
      var h1 := TakePlace(h, c, qid);
      TakePlaceLater(h, c, qid);
      AnswerEnds(h1, c, qid, now, o);
      AnsweredLater(h1, c, qid, o, |ReplayRows(h1.vault, qid, o)|);
    }
  }

  lemma SendLater(h: Hub, c: Conn, env: Envelope, now: int, o: Oracle)
    requires c < |h.chans| && Known(h, Cached(h, env.qid).sub) && AllBounded(h)
    ensures AllLater(h, HandleSend(h, c, env, now, o).hub)
  {
    if Accepts(h, env, o) {
      var qid, mid, e := env.qid, MessageId(env, o), Cached(h, env.qid);
      var h2 := h.(queues := h.queues[qid := e],
        vault := Ledger.Touch(Ledger.Accept(h.vault, mid, qid, env.payload, now), qid, now));
      assert HandleSend(h, c, env, now, o) == Forward(h2, c, e.sub, qid, mid, env.payload, o);
      ForwardLater(h2, c, e.sub, qid, mid, env.payload, o);
    }
  }

  lemma ForwardLater(h: Hub, c: Conn, sub: Option<Conn>, qid: string, mid: string, payload: Payload, o: Oracle)
    requires c < |h.chans| && Known(h, sub) && AllBounded(h)
    ensures AllLater(h, Forward(h, c, sub, qid, mid, payload, o).hub)
  {
  }

  lemma ReadLater(h: Hub, c: Conn, m: Message, now: int, o: Oracle)
    requires Indexed(h) && c < |h.chans| && AllBounded(h)
    ensures AllLater(h, Read(h, c, m, now, o).hub)
  {
    if Parse(m).Some? {
      var env := Parse(m).value;
      match env.kind
      case SUB => SubLater(h, c, env.qid, now, o);
      case SEND => SendLater(h, c, env, now, o);
      case _ =>
    }
  }

  lemma BetweenLater(h: Hub, c: Conn, env: Envelope, now: int, o: Oracle, i: nat)
    requires Indexed(h) && c < |h.chans| && AllBounded(h) && i < |Between(h, c, env, now, o)|
    ensures AllLater(h, Between(h, c, env, now, o)[i])
  {
    if i > 0 {
      match env.kind
      case SUB =>
        SubBetweenAt(h, c, env, now, o, i);
        TakePlaceLater(h, c, env.qid);
        if i >= 2 { AnsweredLater(TakePlace(h, c, env.qid), c, env.qid, o, i - 2); }
      case SEND => SendBetweenLater(h, c, env, now, o, i);
      case _ =>
    }
  }

  lemma SendBetweenLater(h: Hub, c: Conn, env: Envelope, now: int, o: Oracle, i: nat)
    requires c < |h.chans| && Known(h, Cached(h, env.qid).sub) && env.kind == SEND
    requires 0 < i < |Between(h, c, env, now, o)|
    ensures AllLater(h, Between(h, c, env, now, o)[i])
  {
    SendBetweenAt(h, c, env, now, o, i);
    if i == 3 {
      var d := Cached(h, env.qid).sub.value;
      OneLater(h, d, Push(h.chans[d], Deliver(env.qid, MessageId(env, o), env.payload)));
    }
  }

  lemma StepLater(p: Process, s: Step)
    requires ProcessInv(p) && Enabled(p, s)
    ensures AllLater(p.hub, Apply(p, s).hub)
  {
    match s
    case Incoming(c, m, o) => ReadLater(p.hub, c, m, p.now, o);
    case Die(c, env, o, stage) =>
      if stage < |Between(p.hub, c, env, p.now, o)| {
        BetweenLater(p.hub, c, env, p.now, o, stage);
      } else {
        ReadLater(p.hub, c, Wire(env), p.now, o);
      }
    case _ =>
  }

  lemma SentStaysSent(p: Process, s: Step, mid: string)
    requires ProcessInv(p) && Enabled(p, s) && SentToSomebody(p, mid)
    ensures SentToSomebody(Apply(p, s), mid)
  {
    StepLater(p, s);
    var c: Conn :| c < |p.hub.chans| && Sent(p.hub.chans[c], mid);
    var i :| 0 <= i < p.hub.chans[c].popped && i < |p.hub.chans[c].hist|
      && p.hub.chans[c].hist[i].Deliver? && p.hub.chans[c].hist[i].mid == mid;
    assert Apply(p, s).hub.chans[c].hist[i] == p.hub.chans[c].hist[i];
    assert Sent(Apply(p, s).hub.chans[c], mid);
  }

  // ---- honest acknowledgements ----

  ghost predicate AckedWereSent(p: Process) {
    forall n :: n in p.hub.vault.acked ==> n < |p.hub.vault.log| && SentToSomebody(p, p.hub.vault.log[n].mid)
  }

  lemma StepKeepsAcked(p: Process, s: Step)
    requires ProcessInv(p) && Enabled(p, s) && Honest(p, s) && AckedWereSent(p)
    ensures AckedWereSent(Apply(p, s))
  {
    var p' := Apply(p, s);
    LedgerMovesOnlySo(p, s);
    forall n | n in p'.hub.vault.acked ensures n < |p'.hub.vault.log| && SentToSomebody(p', p'.hub.vault.log[n].mid) {
      if n !in p.hub.vault.acked {
        assert p.hub.vault.log[n].mid == Command(s).value.mid;
        assert Sent(p.hub.chans[s.c], Command(s).value.mid);
      }
      SentStaysSent(p, s, p.hub.vault.log[n].mid);
    }
  }

  lemma {:induction false} RunKeepsAcked(p: Process, ss: seq<Step>, p': Process)
    requires ProcessInv(p) && AckedWereSent(p) && RunsHonestly(p, ss, p')
    ensures ProcessInv(p') && AckedWereSent(p')
    decreases ss
  {
    if ss != [] {
      StepKeeps(p, ss[0]);
      StepKeepsAcked(p, ss[0]);
      RunKeepsAcked(Apply(p, ss[0]), ss[1..], p');
    }
  }

  /** When every connection acknowledges only ids of DELIVERs that were put on its own wire,
      every acknowledged message's id was sent to somebody; and when no id was accepted
      twice, it was that message, word for word. */
  lemma AcknowledgedWasDelivered(ss: seq<Step>, p: Process, n: nat)
    requires RunsHonestly(START, ss, p) && n in p.hub.vault.acked
    ensures n < |p.hub.vault.log| && SentToSomebody(p, p.hub.vault.log[n].mid)
    ensures (forall i, j :: 0 <= i < j < |p.hub.vault.log| ==> p.hub.vault.log[i].mid != p.hub.vault.log[j].mid) ==>
      exists c: Conn, i :: c < |p.hub.chans| && 0 <= i < p.hub.chans[c].popped && i < |p.hub.chans[c].hist|
        && var a := p.hub.vault.log[n]; p.hub.chans[c].hist[i] == Deliver(a.qid, a.mid, a.payload)
  {
    StartIsSound();
    RunKeepsAcked(START, ss, p);
    var c: Conn :| c < |p.hub.chans| && Sent(p.hub.chans[c], p.hub.vault.log[n].mid);
    SentNamesAcceptance(p, c, p.hub.vault.log[n].mid);
  }

  lemma SentNamesAcceptance(p: Process, c: Conn, mid: string)
    requires ProcessInv(p) && c < |p.hub.chans| && Sent(p.hub.chans[c], mid)
    ensures var ch, log := p.hub.chans[c], p.hub.vault.log;
      exists i, m :: 0 <= i < ch.popped && i < |ch.hist| && 0 <= m < |log| && log[m].mid == mid
        && ch.hist[i] == Deliver(log[m].qid, log[m].mid, log[m].payload)
  {
    var ch := p.hub.chans[c];
    var i :| 0 <= i < ch.popped && i < |ch.hist| && ch.hist[i].Deliver? && ch.hist[i].mid == mid;
    FrameWasTried(ch, i);
    var j :| 0 <= j < |ch.tried| && ch.tried[j] == ch.hist[i];
    assert Truthful(p.hub.vault, ch.tried[j]);
  }

  lemma FrameWasTried(ch: Chan, i: nat)
    requires Channel.Valid(ch) && i < |ch.hist|
    ensures exists j :: 0 <= j < |ch.tried| && ch.tried[j] == ch.hist[i]
  {
    PartsOfSubsequence(ch.hist, ch.tried, i);
  }

  lemma {:induction false} PartsOfSubsequence(a: seq<Frame>, b: seq<Frame>, i: nat)
    requires Subsequence(a, b) && i < |a|
    ensures exists j :: 0 <= j < |b| && b[j] == a[i]
    decreases |b|
  {
    if a[|a| - 1] == b[|b| - 1] && i < |a| - 1 {
      PartsOfSubsequence(a[..|a| - 1], b[..|b| - 1], i);
    } else if a[|a| - 1] != b[|b| - 1] {
      PartsOfSubsequence(a, b[..|b| - 1], i);
    }
  }

  // ---- a stranger ----

  /** 0 has created a queue, 1 is connected, and no message was ever offered to anybody. */
  ghost predicate Prelude(p: Process, qid: string) {
    && Reachable(p) && p.birth == 0 && p.hub.clients == p.readers == {0, 1}
    && p.hub.queues == map[qid := Entry(Some(0), None)] && qid in p.hub.vault.db.queues
    && p.hub.vault.db.rows == [] && p.hub.vault.log == [] && p.hub.vault.acked == {}
    && p.hub.chans == [Push(NEW_CHAN, NewOk(qid)), NEW_CHAN]
  }

  lemma PreludeIsReachable(qid: string) returns (p: Process)
    requires ClientValidQID(qid)
    ensures Prelude(p, qid)
  {
    assert Runs(START, [], START);
    StaysReachable(START, Connect);
    var p1 := Apply(START, Connect);
    StaysReachable(p1, Connect);
    var p2 := Apply(p1, Connect);
    ReachableIsSound(p2);
    HubInvIsIndexed(p2.hub, p2.birth);
    StaysReachable(p2, Creating(0, qid));
    p := Apply(p2, Creating(0, qid));
  }

  function Posting(qid: string, mid: string): Step {
    Incoming(0, Wire(SendCommand(qid, mid, "hi")), Drawing(mid))
  }

  function Dropping(qid: string, mid: string): Step {
    Incoming(1, Wire(AckCommand(qid, mid)), Drawing(mid))
  }

  lemma Posted(p: Process, qid: string, mid: string)
    requires Prelude(p, qid) && ClientValidQID(qid) && ValidQueueID(qid) && ClientValidQID(mid)
    ensures Enabled(p, Posting(qid, mid))
    ensures var p' := Apply(p, Posting(qid, mid));
      && Reachable(p') && 1 in p'.readers && |p'.hub.chans| == 2
      && p'.hub.vault.number == p.hub.vault.number[mid := 0] && Ledger.Stored(p'.hub.vault) == {0}
      && p'.hub.chans == [Push(Push(NEW_CHAN, NewOk(qid)), Acked(qid, mid)), NEW_CHAN]
  {
    ReachableIsSound(p);
    HubInvIsIndexed(p.hub, p.birth);
    StaysReachable(p, Posting(qid, mid));
    var h := p.hub;
    var saved := Ledger.Accept(h.vault, mid, qid, Chat("hi"), p.now);
    Ledger.AcceptStores(h.vault, mid, qid, Chat("hi"), p.now);
    assert Ledger.Stored(h.vault) == {};
    assert Ledger.Stored(Ledger.Touch(saved, qid, p.now)) == Ledger.Stored(saved);
  }

  lemma Dropped(p: Process, qid: string, mid: string)
    requires Reachable(p) && 1 in p.readers && |p.hub.chans| == 2 && ClientValidQID(qid) && ClientValidQID(mid)
    requires mid in p.hub.vault.number && p.hub.vault.number[mid] in Ledger.Stored(p.hub.vault)
    ensures Enabled(p, Dropping(qid, mid))
    ensures var p' := Apply(p, Dropping(qid, mid));
      Reachable(p') && p'.hub.chans == p.hub.chans && p.hub.vault.number[mid] in p'.hub.vault.acked
  {
    ReachableIsSound(p);
    HubInvIsIndexed(p.hub, p.birth);
    StaysReachable(p, Dropping(qid, mid));
    Ledger.AcknowledgeTakesOne(p.hub.vault, mid);
  }

  /** No message was ever offered to anybody. */
  ghost predicate Silent(chans: seq<Chan>) {
    forall c, i :: 0 <= c < |chans| && 0 <= i < |chans[c].tried| ==> !chans[c].tried[i].Deliver?
  }

  /** From the first start: 1 acknowledges a message nobody was sent, and it is gone. */
  lemma StrangerAcknowledges()
    ensures exists p, n :: Reachable(p) && n in p.hub.vault.acked && Silent(p.hub.chans)
  {
    var qid, mid := TwoIds();
    var p := PreludeIsReachable(qid);
    Posted(p, qid, mid);
    Dropped(Apply(p, Posting(qid, mid)), qid, mid);
  }
}
