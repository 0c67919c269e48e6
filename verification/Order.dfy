/** The order of deliveries on one connection, whatever everybody else does. The connection
    asks for a queue at most once; all other connections are arbitrary, message ids need not
    be fresh, and the process may end anywhere. */
module Order {
  import opened Ids
  import opened Frames
  import opened Channel
  import opened Relay
  import opened Steps
  import opened Invariants
  import Tables
  import Ledger

  // ---- frames in acceptance order ----

  /** f delivers acceptance n, of the queue asked for. */
  ghost predicate Carries(v: Vault, asked: Option<string>, f: Frame, n: nat) {
    && f.Deliver? && asked == Some(f.qid) && n < |v.log|
    && v.log[n].mid == f.mid && v.log[n].qid == f.qid && v.log[n].payload == f.payload
  }

  /** ns numbers the DELIVERs among fs: each carries its acceptance, and the numbers
      increase, staying below bound. */
  ghost predicate Numbered(v: Vault, asked: Option<string>, fs: seq<Frame>, ns: seq<nat>, bound: nat) {
    && |ns| == |fs|
    && (forall i :: 0 <= i < |fs| && fs[i].Deliver? ==> Carries(v, asked, fs[i], ns[i]) && ns[i] < bound)
    && (forall i, j :: 0 <= i < j < |fs| && fs[i].Deliver? && fs[j].Deliver? ==> ns[i] < ns[j])
  }

  ghost predicate InSequence(v: Vault, asked: Option<string>, fs: seq<Frame>, bound: nat) {
    exists ns :: Numbered(v, asked, fs, ns, bound)
  }

  /** What was offered to a channel, and what found room. */
  ghost predicate Orderly(v: Vault, asked: Option<string>, ch: Chan, bound: nat) {
    InSequence(v, asked, ch.tried, bound) && InSequence(v, asked, ch.hist, bound)
  }

  lemma SequenceExtends(v: Vault, asked: Option<string>, fs: seq<Frame>, bound: nat, f: Frame, n: nat)
    requires InSequence(v, asked, fs, bound) && bound <= n && (f.Deliver? ==> Carries(v, asked, f, n))
    ensures InSequence(v, asked, fs + [f], if f.Deliver? then n + 1 else bound)
  {
    var ns :| Numbered(v, asked, fs, ns, bound);
    assert Numbered(v, asked, fs + [f], ns + [n], if f.Deliver? then n + 1 else bound);
  }

  lemma SequenceWidens(v: Vault, v': Vault, asked: Option<string>, fs: seq<Frame>, bound: nat, bound': nat)
    requires InSequence(v, asked, fs, bound) && v.log <= v'.log && bound <= bound'
    ensures InSequence(v', asked, fs, bound')
  {
    var ns :| Numbered(v, asked, fs, ns, bound);
    assert Numbered(v', asked, fs, ns, bound');
  }

  lemma NothingInSequence(v: Vault, asked: Option<string>, fs: seq<Frame>)
    requires forall i :: 0 <= i < |fs| ==> !fs[i].Deliver?
    ensures InSequence(v, asked, fs, 0)
  {
    assert Numbered(v, asked, fs, seq(|fs|, _ => 0), 0);
  }

  lemma UnaskedIsEmpty(v: Vault, fs: seq<Frame>, bound: nat)
    requires InSequence(v, None, fs, bound)
    ensures forall i :: 0 <= i < |fs| ==> !fs[i].Deliver?
  {
    var ns :| Numbered(v, None, fs, ns, bound);
  }

  lemma OrderlyWidens(v: Vault, v': Vault, asked: Option<string>, ch: Chan, bound: nat, bound': nat)
    requires Orderly(v, asked, ch, bound) && v.log <= v'.log && bound <= bound'
    ensures Orderly(v', asked, ch, bound')
  {
    SequenceWidens(v, v', asked, ch.tried, bound, bound');
    SequenceWidens(v, v', asked, ch.hist, bound, bound');
  }

  /** Any frame but a DELIVER may be pushed at any time. */
  lemma PushOther(v: Vault, asked: Option<string>, ch: Chan, bound: nat, f: Frame)
    requires Orderly(v, asked, ch, bound) && !f.Deliver?
    ensures Orderly(v, asked, Push(ch, f), bound)
  {
    SequenceExtends(v, asked, ch.tried, bound, f, bound);
    SequenceExtends(v, asked, ch.hist, bound, f, bound);
  }

  lemma PushDeliver(v: Vault, asked: Option<string>, ch: Chan, bound: nat, f: Frame, n: nat)
    requires Orderly(v, asked, ch, bound) && bound <= n && Carries(v, asked, f, n)
    ensures Orderly(v, asked, Push(ch, f), n + 1)
  {
    SequenceExtends(v, asked, ch.tried, bound, f, n);
    SequenceExtends(v, asked, ch.hist, bound, f, n);
    SequenceWidens(v, v, asked, ch.hist, bound, n + 1);
  }

  lemma PushOtherTo(v: Vault, asked: Option<string>, h: Hub, d: Conn, f: Frame, c: Conn, bound: nat)
    requires d < |h.chans| && c < |h.chans| && !f.Deliver? && Orderly(v, asked, h.chans[c], bound)
    ensures Orderly(v, asked, SendTo(h, d, f).hub.chans[c], bound)
  {
    if c == d { PushOther(v, asked, h.chans[c], bound, f); }
  }

  // ---- the replay ----

  /** The bound after n rows. */
  function After(v: Vault, rows: seq<Tables.Row>, n: nat): nat
    requires n <= |rows|
  {
    if n == 0 || rows[n - 1].mid !in v.number then 0 else v.number[rows[n - 1].mid] + 1
  }

  lemma {:induction false} ReplayOrderly(v: Vault, ch: Chan, qid: string, rows: seq<Tables.Row>, o: Oracle, n: nat)
    requires n <= |rows| && Orderly(v, Some(qid), ch, 0) && Ledger.Ascending(v, rows)
    requires forall r :: r in rows ==> Ledger.Booked(v, r) && r.qid == qid
    ensures Orderly(v, Some(qid), Replay(ch, qid, rows, o, n), After(v, rows, n))
  {
    if n > 0 {
      ReplayOrderly(v, ch, qid, rows, o, n - 1);
      var ch1, r := Take(Replay(ch, qid, rows, o, n - 1), TakesBefore(o, n - 1)), rows[n - 1];
      assert Ledger.Booked(v, r);
      assert n > 1 ==> Ledger.Earlier(v, rows[n - 2], r);
      PushDeliver(v, Some(qid), ch1, After(v, rows, n - 1), DeliverRow(qid, r), v.number[r.mid]);
    }
  }

  /** A connection that has been sent no message asks for a queue. */
  lemma AnswerOrderly(v: Vault, now: int, ch: Chan, qid: string, o: Oracle, n: nat)
    requires Ledger.Sound(v) && Ledger.Timely(v, now) && Orderly(v, None, ch, |v.log|) && n <= |ReplayRows(v, qid, o)|
    ensures Orderly(v, Some(qid), Replay(Push(ch, SubOk(qid)), qid, ReplayRows(v, qid, o), o, n), |v.log|)
  {
    var rows := ReplayRows(v, qid, o);
    Ledger.ReplayIsAcceptanceOrder(v, now, qid);
    AskingOrderly(v, ch, Some(qid));
    PushOther(v, Some(qid), ch, 0, SubOk(qid));
    ReplayOrderly(v, Push(ch, SubOk(qid)), qid, rows, o, n);
    assert n > 0 ==> Ledger.Booked(v, rows[n - 1]);
    OrderlyWidens(v, v, Some(qid), Replay(Push(ch, SubOk(qid)), qid, rows, o, n), After(v, rows, n), |v.log|);
  }

  lemma AskingOrderly(v: Vault, ch: Chan, asked: Option<string>)
    requires Orderly(v, None, ch, |v.log|)
    ensures Orderly(v, asked, ch, 0) && Orderly(v, asked, ch, |v.log|)
  {
    UnaskedIsEmpty(v, ch.tried, |v.log|);
    UnaskedIsEmpty(v, ch.hist, |v.log|);
    NothingInSequence(v, asked, ch.tried);
    NothingInSequence(v, asked, ch.hist);
    OrderlyWidens(v, v, asked, ch, 0, |v.log|);
  }

  // ---- commands ----

  /** c has a channel, and what was offered to it is in order. */
  ghost predicate Lined(h: Hub, c: Conn, asked: Option<string>) {
    c < |h.chans| && Orderly(h.vault, asked, h.chans[c], |h.vault.log|)
  }

  /** c subscribes to nothing but what it asked for. */
  ghost predicate Faithful(h: Hub, c: Conn, asked: Option<string>) {
    forall q :: q in h.queues && h.queues[q].sub == Some(c) ==> asked == Some(q)
  }

  function Asking(asked: Option<string>, now: Option<string>): Option<string> {
    if now.Some? then now else asked
  }

  /** The queue c asks for with command env of connection d. */
  function AskedBy(d: Conn, env: Envelope, c: Conn): Option<string> {
    if d == c && env.kind == SUB then Some(env.qid) else None
  }

  lemma LinedWidens(h: Hub, g: Hub, c: Conn, asked: Option<string>)
    requires Lined(h, c, asked) && |g.chans| == |h.chans| && h.vault.log <= g.vault.log
    requires g.chans[c].tried == h.chans[c].tried && g.chans[c].hist == h.chans[c].hist
    ensures Lined(g, c, asked)
  {
    OrderlyWidens(h.vault, g.vault, asked, h.chans[c], |h.vault.log|, |g.vault.log|);
  }

  lemma SendToLined(h: Hub, d: Conn, f: Frame, c: Conn, asked: Option<string>)
    requires d < |h.chans| && Lined(h, c, asked) && !f.Deliver?
    ensures Lined(SendTo(h, d, f).hub, c, asked)
  {
    PushOtherTo(h.vault, asked, h, d, f, c, |h.vault.log|);
  }

  lemma NewLined(h: Hub, d: Conn, env: Envelope, now: int, o: Oracle, c: Conn, asked: Option<string>)
    requires d < |h.chans| && Lined(h, c, asked) && Faithful(h, c, asked)
    ensures Lined(HandleNew(h, d, env, now, o).hub, c, asked) && Faithful(HandleNew(h, d, env, now, o).hub, c, asked)
  {
    if env.qid != "" {
      SendToLined(h, d, Error(BAD_REQUEST), c, asked);
    } else if o.idFails || o.writeFails {
      SendToLined(h, d, Error(SERVER_ERROR), c, asked);
    } else {
      var h1 := h.(vault := Ledger.Touch(Ledger.Create(h.vault, o.newId, now), o.newId, now),
                   queues := h.queues[o.newId := Entry(Some(d), None)]);
      LinedWidens(h, h1, c, asked);
      SendToLined(h1, d, NewOk(o.newId), c, asked);
    }
  }

  lemma TakePlaceLined(h: Hub, d: Conn, qid: string, c: Conn, asked: Option<string>)
    requires d < |h.chans| && Known(h, Cached(h, qid).sub) && Lined(h, c, asked)
    ensures Lined(TakePlace(h, d, qid), c, asked)
  {
    LinedWidens(h, TakePlace(h, d, qid), c, asked);
  }

  /** SUB_OK and the first n rows, over another connection or over c. */
  lemma AnsweredLined(h: Hub, d: Conn, qid: string, now: int, o: Oracle, n: nat, c: Conn, asked: Option<string>)
    requires d < |h.chans| && Lined(h, c, asked) && n <= |ReplayRows(h.vault, qid, o)|
    requires Ledger.Sound(h.vault) && Ledger.Timely(h.vault, now) && (d == c ==> asked.None?)
    ensures Lined(Answered(h, d, qid, o, n), c, if d == c then Some(qid) else asked)
  {
    if d == c { AnswerOrderly(h.vault, now, h.chans[c], qid, o, n); }
  }

  lemma AnswerLined(h: Hub, d: Conn, qid: string, now: int, o: Oracle, c: Conn, asked: Option<string>)
    requires d < |h.chans| && Lined(h, c, asked)
    requires Ledger.Sound(h.vault) && Ledger.Timely(h.vault, now) && (d == c ==> asked.None?)
    ensures Lined(Answer(h, d, qid, now, o).hub, c, if d == c then Some(qid) else asked)
  {
    var n := |ReplayRows(h.vault, qid, o)|;
    AnswerEnds(h, d, qid, now, o);
    if Open(h.chans[d]) {
      AnsweredLined(h, d, qid, now, o, n, c, asked);
      var g := Answered(h, d, qid, o, n);
      LinedWidens(g, g.(vault := Ledger.Touch(h.vault, qid, now)), c, if d == c then Some(qid) else asked);
    } else if d == c {
      AskingOrderly(h.vault, h.chans[c], Some(qid));
    }
  }

  lemma SubLined(h: Hub, d: Conn, qid: string, now: int, o: Oracle, c: Conn, asked: Option<string>)
    requires d < |h.chans| && Known(h, Cached(h, qid).sub) && Lined(h, c, asked)
    requires Ledger.Sound(h.vault) && Ledger.Timely(h.vault, now) && (d == c ==> asked.None?)
    ensures Lined(HandleSub(h, d, qid, now, o).hub, c, if d == c then Some(qid) else asked)
  {
    if Refuses(h, d, qid, o) {
      if d == c { AskingOrderly(h.vault, h.chans[c], Some(qid)); }
      var f := Error(if LookupError(h, qid, o).Some? then LookupError(h, qid, o).value else BAD_REQUEST);
      SendToLined(h, d, f, c, if d == c then Some(qid) else asked);
    } else {
      TakePlaceLined(h, d, qid, c, asked);
      AnswerLined(TakePlace(h, d, qid), d, qid, now, o, c, asked);
    }
  }

  lemma SubFaithful(h: Hub, d: Conn, qid: string, now: int, o: Oracle, c: Conn, asked: Option<string>)
    requires d < |h.chans| && Known(h, Cached(h, qid).sub) && Faithful(h, c, asked) && (d == c ==> asked.None?)
    ensures Faithful(HandleSub(h, d, qid, now, o).hub, c, if d == c then Some(qid) else asked)
  {
  }

  lemma ForwardLined(h: Hub, d: Conn, sub: Option<Conn>, qid: string, mid: string, payload: Payload, o: Oracle,
                     c: Conn, asked: Option<string>)
    requires d < |h.chans| && Known(h, sub) && c < |h.chans| && (sub == Some(c) ==> asked == Some(qid))
    requires h.vault.log != [] && Orderly(h.vault, asked, h.chans[c], |h.vault.log| - 1)
    requires var a := h.vault.log[|h.vault.log| - 1]; a.mid == mid && a.qid == qid && a.payload == payload
    ensures Lined(Forward(h, d, sub, qid, mid, payload, o).hub, c, asked)
    ensures sub.Some? ==> Lined(SendTo(h, sub.value, Deliver(qid, mid, payload)).hub, c, asked)
  {
    var n, f := |h.vault.log| - 1, Deliver(qid, mid, payload);
    OrderlyWidens(h.vault, h.vault, asked, h.chans[c], n, n + 1);
    if sub == Some(c) { PushDeliver(h.vault, asked, h.chans[c], n, f, n); }
    var sent := if sub.Some? then SendTo(h, sub.value, f) else Alive(h);
    assert Lined(sent.hub, c, asked);
    if sent.Alive? && Sliceable(mid) {
      var h1 := Written(sent.hub, d, TakesBefore(o, 0));
      LinedWidens(sent.hub, h1, c, asked);
      SendToLined(h1, d, Acked(qid, mid), c, asked);
    }
  }

  lemma SendLined(h: Hub, d: Conn, env: Envelope, now: int, o: Oracle, c: Conn, asked: Option<string>)
    requires d < |h.chans| && Known(h, Cached(h, env.qid).sub) && Lined(h, c, asked) && Faithful(h, c, asked)
    ensures Lined(HandleSend(h, d, env, now, o).hub, c, asked) && Faithful(HandleSend(h, d, env, now, o).hub, c, asked)
  {
    SendTables(h, d, env, now, o);
    if LookupError(h, env.qid, o).Some? {
      SendToLined(h, d, Error(LookupError(h, env.qid, o).value), c, asked);
    } else if !Accepts(h, env, o) {
      SendToLined(h.(queues := h.queues[env.qid := Cached(h, env.qid)]), d, Error(SERVER_ERROR), c, asked);
    } else {
      AcceptedLined(h, d, env, now, o, c, asked);
    }
  }

  lemma AcceptedLined(h: Hub, d: Conn, env: Envelope, now: int, o: Oracle, c: Conn, asked: Option<string>)
    requires d < |h.chans| && Known(h, Cached(h, env.qid).sub) && Lined(h, c, asked) && Faithful(h, c, asked)
    requires Accepts(h, env, o)
    ensures Lined(HandleSend(h, d, env, now, o).hub, c, asked)
  {
    var qid, mid, e := env.qid, MessageId(env, o), Cached(h, env.qid);
    var h2 := h.(queues := h.queues[qid := e],
      vault := Ledger.Touch(Ledger.Accept(h.vault, mid, qid, env.payload, now), qid, now));
    OrderlyWidens(h.vault, h2.vault, asked, h.chans[c], |h.vault.log|, |h.vault.log|);
    ForwardLined(h2, d, e.sub, qid, mid, env.payload, o, c, asked);
    assert HandleSend(h, d, env, now, o) == Forward(h2, d, e.sub, qid, mid, env.payload, o);
  }

  lemma ReadLined(h: Hub, d: Conn, m: Message, now: int, o: Oracle, c: Conn, asked: Option<string>)
    requires Indexed(h) && d < |h.chans| && Lined(h, c, asked) && Faithful(h, c, asked)
    requires Ledger.Sound(h.vault) && Ledger.Timely(h.vault, now)
    requires Parse(m).Some? ==> (AskedBy(d, Parse(m).value, c).Some? ==> asked.None?)
    ensures var g := Read(h, d, m, now, o).hub;
      var asked' := if Parse(m).Some? then Asking(asked, AskedBy(d, Parse(m).value, c)) else asked;
      Lined(g, c, asked') && Faithful(g, c, asked')
  {
    if Parse(m).None? {
      SendToLined(h, d, Error(BAD_REQUEST), c, asked);
    } else if Parse(m).value.kind == PING {
      SendToLined(h, d, Pong, c, asked);
    } else {
      HandleLined(h, d, Parse(m).value, now, o, c, asked);
    }
  }

  lemma HandleLined(h: Hub, d: Conn, env: Envelope, now: int, o: Oracle, c: Conn, asked: Option<string>)
    requires Indexed(h) && d < |h.chans| && Lined(h, c, asked) && Faithful(h, c, asked) && env.kind != PING
    requires Ledger.Sound(h.vault) && Ledger.Timely(h.vault, now) && (AskedBy(d, env, c).Some? ==> asked.None?)
    ensures var g, asked' := Handle(h, d, env, now, o).hub, Asking(asked, AskedBy(d, env, c));
      Lined(g, c, asked') && Faithful(g, c, asked')
  {
    match env.kind
    case NEW => NewLined(h, d, env, now, o, c, asked);
    case SUB =>
      SubLined(h, d, env.qid, now, o, c, asked);
      SubFaithful(h, d, env.qid, now, o, c, asked);
    case SEND => SendLined(h, d, env, now, o, c, asked);
    case ACK =>
      LinedWidens(h, h.(vault := if o.writeFails then h.vault else Ledger.Acknowledge(h.vault, env.mid)), c, asked);
    case OTHER => SendToLined(h, d, Error(BAD_REQUEST), c, asked);
  }

  /** The same wherever the process ends while it handles a command. */
  lemma BetweenLined(h: Hub, d: Conn, env: Envelope, now: int, o: Oracle, i: nat, c: Conn, asked: Option<string>)
    requires Indexed(h) && d < |h.chans| && Lined(h, c, asked) && Faithful(h, c, asked)
    requires Ledger.Sound(h.vault) && Ledger.Timely(h.vault, now) && (AskedBy(d, env, c).Some? ==> asked.None?)
    requires i < |Between(h, d, env, now, o)|
    ensures Lined(Between(h, d, env, now, o)[i], c, Asking(asked, AskedBy(d, env, c)))
  {
    var g := Between(h, d, env, now, o)[i];
    match env.kind
    case NEW => LinedWidens(h, g, c, asked);
    case SUB => SubBetweenLined(h, d, env, now, o, i, c, asked);
    case SEND => SendBetweenLined(h, d, env, now, o, i, c, asked);
    case _ =>
  }

  lemma SubBetweenLined(h: Hub, d: Conn, env: Envelope, now: int, o: Oracle, i: nat, c: Conn, asked: Option<string>)
    requires Indexed(h) && d < |h.chans| && Lined(h, c, asked) && env.kind == SUB
    requires Ledger.Sound(h.vault) && Ledger.Timely(h.vault, now) && (AskedBy(d, env, c).Some? ==> asked.None?)
    requires i < |Between(h, d, env, now, o)|
    ensures Lined(Between(h, d, env, now, o)[i], c, Asking(asked, AskedBy(d, env, c)))
  {
    if i > 0 { SubBetweenAt(h, d, env, now, o, i); }
    if i >= 2 {
      TakenLined(h, d, env.qid, now, o, i - 2, c, asked);
    } else {
      if d == c { AskingOrderly(h.vault, h.chans[c], Some(env.qid)); }
      if i == 1 { TakePlaceLined(h, d, env.qid, c, Asking(asked, AskedBy(d, env, c))); }
    }
  }

  lemma TakenLined(h: Hub, d: Conn, qid: string, now: int, o: Oracle, n: nat, c: Conn, asked: Option<string>)
    requires d < |h.chans| && Known(h, Cached(h, qid).sub) && Lined(h, c, asked) && n <= |ReplayRows(h.vault, qid, o)|
    requires Ledger.Sound(h.vault) && Ledger.Timely(h.vault, now) && (d == c ==> asked.None?)
    ensures Lined(Answered(TakePlace(h, d, qid), d, qid, o, n), c, if d == c then Some(qid) else asked)
  {
    TakePlaceLined(h, d, qid, c, asked);
    AnsweredLined(TakePlace(h, d, qid), d, qid, now, o, n, c, asked);
  }

  lemma SendBetweenLined(h: Hub, d: Conn, env: Envelope, now: int, o: Oracle, i: nat, c: Conn, asked: Option<string>)
    requires Indexed(h) && d < |h.chans| && Lined(h, c, asked) && Faithful(h, c, asked) && env.kind == SEND
    requires i < |Between(h, d, env, now, o)|
    ensures Lined(Between(h, d, env, now, o)[i], c, asked)
  {
    var g, qid, mid, sub := Between(h, d, env, now, o)[i], env.qid, MessageId(env, o), Cached(h, env.qid).sub;
    if i > 0 { SendBetweenAt(h, d, env, now, o, i); }
    if i < 3 {
      LinedWidens(h, g, c, asked);
    } else {
      var h1 := h.(vault := Ledger.Touch(Ledger.Accept(h.vault, mid, qid, env.payload, now), qid, now));
      OrderlyWidens(h.vault, h1.vault, asked, h.chans[c], |h.vault.log|, |h.vault.log|);
      ForwardLined(h1, d, sub, qid, mid, env.payload, o, c, asked);
    }
  }

  // ---- runs ----

  /** The queue c asks for in step s. */
  function AsksFor(s: Step, c: Conn): Option<string> {
    match s
    case Incoming(d, m, _) => if Parse(m).Some? then AskedBy(d, Parse(m).value, c) else None
    case Die(d, env, _, _) => AskedBy(d, env, c)
    case _ => None
  }

  /** What holds of connection c, which may not be there yet. */
  ghost predicate Watched(p: Process, c: Conn, asked: Option<string>) {
    && (if c < |p.hub.chans| then Lined(p.hub, c, asked) else asked.None?)
    && Faithful(p.hub, c, asked)
    && (asked.None? && c in p.readers ==> c in p.hub.clients)
  }

  lemma NewcomersAreWatched(p: Process, c: Conn)
    requires ProcessInv(p) && |p.hub.chans| <= c
    ensures Watched(p, c, None)
  {
    HubInvIsIndexed(p.hub, p.birth);
  }

  lemma ConnectWatched(p: Process, c: Conn, asked: Option<string>)
    requires ProcessInv(p) && Enabled(p, Connect) && Watched(p, c, asked)
    ensures Watched(Apply(p, Connect), c, asked)
  {
    if c == |p.hub.chans| {
      NothingInSequence(p.hub.vault, asked, []);
      OrderlyWidens(p.hub.vault, p.hub.vault, asked, NEW_CHAN, 0, |p.hub.vault.log|);
    }
  }

  lemma IncomingWatched(p: Process, d: Conn, m: Message, o: Oracle, c: Conn, asked: Option<string>)
    requires ProcessInv(p) && Enabled(p, Incoming(d, m, o)) && Watched(p, c, asked) && c < |p.hub.chans|
    requires AsksFor(Incoming(d, m, o), c).Some? ==> asked.None?
    ensures Watched(Apply(p, Incoming(d, m, o)), c, Asking(asked, AsksFor(Incoming(d, m, o), c)))
  {
    ReadLined(p.hub, d, m, p.now, o, c, asked);
    ReadKeepsMembers(p.hub, d, m, p.now, o);
    if asked.None? && c in p.hub.clients { UnaskedStays(p.hub, d, m, p.now, o, c, asked); }
    var out := Read(p.hub, d, m, p.now, o);
    if out.Crashed? { RebootLined(p, out.hub, c, Asking(asked, AsksFor(Incoming(d, m, o), c))); }
  }

  lemma RebootLined(p: Process, g: Hub, c: Conn, asked: Option<string>)
    requires Lined(g, c, asked)
    ensures Watched(Rebooted(p, g), c, asked)
  {
    LinedWidens(g, Rebooted(p, g).hub, c, asked);
  }

  /** Who subscribes to nothing is not kicked. */
  lemma UnaskedStays(h: Hub, d: Conn, m: Message, now: int, o: Oracle, c: Conn, asked: Option<string>)
    requires Indexed(h) && d < |h.chans| && Faithful(h, c, asked) && asked.None? && c in h.clients
    ensures c in Read(h, d, m, now, o).hub.clients
  {
    if Parse(m).Some? {
      var env := Parse(m).value;
      match env.kind
      case SUB => assert Cached(h, env.qid).sub != Some(c);
      case _ =>
    }
  }

  lemma StepWatched(p: Process, s: Step, c: Conn, asked: Option<string>)
    requires ProcessInv(p) && Enabled(p, s) && Watched(p, c, asked) && (AsksFor(s, c).Some? ==> asked.None?)
    ensures Watched(Apply(p, s), c, Asking(asked, AsksFor(s, c)))
  {
    StepKeeps(p, s);
    if s.Connect? {
      ConnectWatched(p, c, asked);
    } else if c >= |p.hub.chans| {
      AbsentStays(p, s, c);
      NewcomersAreWatched(Apply(p, s), c);
    } else {
      PresentWatched(p, s, c, asked);
    }
  }

  lemma AbsentStays(p: Process, s: Step, c: Conn)
    requires ProcessInv(p) && Enabled(p, s) && !s.Connect? && c >= |p.hub.chans|
    ensures |Apply(p, s).hub.chans| == |p.hub.chans| && AsksFor(s, c).None?
  {
    match s
    case Incoming(d, m, o) => ReadKeepsMembers(p.hub, d, m, p.now, o);
    case Die(d, env, o, stage) => StagesKeep(p.hub, p.birth, d, env, p.now, o);
    case _ =>
  }

  lemma PresentWatched(p: Process, s: Step, c: Conn, asked: Option<string>)
    requires ProcessInv(p) && Enabled(p, s) && !s.Connect? && Watched(p, c, asked) && c < |p.hub.chans|
    requires AsksFor(s, c).Some? ==> asked.None?
    ensures Watched(Apply(p, s), c, Asking(asked, AsksFor(s, c)))
  {
    match s
    case Incoming(d, m, o) => IncomingWatched(p, d, m, o, c, asked);
    case Die(d, env, o, stage) => DieWatched(p, d, env, o, stage, c, asked);
    case Restart => RebootLined(p, p.hub, c, asked);
    case _ => QuietWatched(p, s, c, asked);
  }

  lemma QuietWatched(p: Process, s: Step, c: Conn, asked: Option<string>)
    requires Enabled(p, s) && !s.Connect? && !s.Incoming? && !s.Die? && !s.Restart?
    requires Watched(p, c, asked) && c < |p.hub.chans|
    ensures Watched(Apply(p, s), c, asked)
  {
    LinedWidens(p.hub, Apply(p, s).hub, c, asked);
  }

  lemma DieWatched(p: Process, d: Conn, env: Envelope, o: Oracle, stage: nat, c: Conn, asked: Option<string>)
    requires ProcessInv(p) && Enabled(p, Die(d, env, o, stage)) && Watched(p, c, asked) && c < |p.hub.chans|
    requires AskedBy(d, env, c).Some? ==> asked.None?
    ensures Watched(Apply(p, Die(d, env, o, stage)), c, Asking(asked, AskedBy(d, env, c)))
  {
    if stage < |Between(p.hub, d, env, p.now, o)| {
      BetweenLined(p.hub, d, env, p.now, o, stage, c, asked);
    } else {
      assert Parse(Wire(env)) == Some(env);
      ReadLined(p.hub, d, Wire(env), p.now, o, c, asked);
    }
    RebootLined(p, Stages(p.hub, d, env, p.now, o)[stage], c, Asking(asked, AskedBy(d, env, c)));
  }

  /** c asks at most once. */
  ghost predicate AsksOnce(ss: seq<Step>, c: Conn, asked: Option<string>) {
    && (forall i, j :: 0 <= i < j < |ss| ==> AsksFor(ss[i], c).None? || AsksFor(ss[j], c).None?)
    && (asked.Some? ==> forall i :: 0 <= i < |ss| ==> AsksFor(ss[i], c).None?)
  }

  ghost predicate AskedIn(ss: seq<Step>, c: Conn, asked: Option<string>) {
    if asked.Some? then exists i :: 0 <= i < |ss| && AsksFor(ss[i], c) == asked
    else forall i :: 0 <= i < |ss| ==> AsksFor(ss[i], c).None?
  }

  lemma {:induction false} RunWatched(p: Process, ss: seq<Step>, p': Process, c: Conn, asked: Option<string>)
    returns (asked': Option<string>)
    requires ProcessInv(p) && Runs(p, ss, p') && Watched(p, c, asked) && AsksOnce(ss, c, asked)
    ensures ProcessInv(p') && Watched(p', c, asked')
    ensures if asked.Some? then asked' == asked else AskedIn(ss, c, asked')
    decreases ss
  {
    if ss == [] {
      asked' := asked;
    } else {
      StepKeeps(p, ss[0]);
      StepWatched(p, ss[0], c, asked);
      var now, rest := Asking(asked, AsksFor(ss[0], c)), ss[1..];
      assert AsksOnce(rest, c, now) by {
        forall i | 0 <= i < |rest| && now.Some? ensures AsksFor(rest[i], c).None? { assert rest[i] == ss[i + 1]; }
        forall i, j | 0 <= i < j < |rest| ensures AsksFor(rest[i], c).None? || AsksFor(rest[j], c).None? {
          assert rest[i] == ss[i + 1] && rest[j] == ss[j + 1];
        }
      }
      asked' := RunWatched(Apply(p, ss[0]), rest, p', c, now);
      if asked.None? { AskedLater(ss, c, now, asked'); }
    }
  }

  lemma AskedLater(ss: seq<Step>, c: Conn, now: Option<string>, asked: Option<string>)
    requires ss != [] && now == AsksFor(ss[0], c)
    requires if now.Some? then asked == now else AskedIn(ss[1..], c, asked)
    ensures now.Some? || asked.Some? ==> AskedIn(ss, c, asked)
    ensures now.None? && asked.None? ==> AskedIn(ss, c, asked)
  {
    if now.None? && asked.Some? {
      var i :| 0 <= i < |ss[1..]| && AsksFor(ss[1..][i], c) == asked;
      assert ss[i + 1] == ss[1..][i];
    }
    if now.None? && asked.None? {
      forall i | 0 <= i < |ss| ensures AsksFor(ss[i], c).None? { assert i > 0 ==> ss[i] == ss[1..][i - 1]; }
    }
  }

  /** Connection c asks for at most one queue, once; everybody else, before and after, does
      what they like. Then everything offered to c is delivered in acceptance order: the
      DELIVERs can be numbered by strictly increasing acceptances of the queue asked for,
      each carrying what was accepted. Before it has asked c is offered no message, and it is
      the subscriber of no other queue. */
  lemma DeliveryOrder(p: Process, ss: seq<Step>, p': Process, c: Conn)
    requires ProcessInv(p) && Runs(p, ss, p') && AsksOnce(ss, c, None) && |p.hub.chans| <= c < |p'.hub.chans|
    ensures exists asked, ns, ms :: (AskedIn(ss, c, asked) && Faithful(p'.hub, c, asked)
      && Numbered(p'.hub.vault, asked, p'.hub.chans[c].tried, ns, |p'.hub.vault.log|)
      && Numbered(p'.hub.vault, asked, p'.hub.chans[c].hist, ms, |p'.hub.vault.log|))
  {
    NewcomersAreWatched(p, c);
    var asked := RunWatched(p, ss, p', c, None);
    var ns :| Numbered(p'.hub.vault, asked, p'.hub.chans[c].tried, ns, |p'.hub.vault.log|);
    var ms :| Numbered(p'.hub.vault, asked, p'.hub.chans[c].hist, ms, |p'.hub.vault.log|);
  }
}
