/** The server handling one command of a shipped client keeps WorldInv. */
module ServeProofs {
  import opened Ids
  import opened Frames
  import opened Channel
  import opened Relay
  import opened Steps
  import opened Invariants
  import opened Guarantees
  import opened Chat
  import opened World
  import opened WorldProofs
  import Tables
  import Ledger

  lemma ServedKeeps(w: World, w': World, c: Conn)
    requires WorldInv(w) && ProcessInv(w'.p) && c < |w.sessions| == |w'.sessions| == |w'.p.hub.chans|
    requires w'.used == w.used && w'.p.readers == w.p.readers && w.sessions[c].up != []
    requires forall d: Conn :: d < |w.sessions| && d != c ==> w'.sessions[d] == w.sessions[d]
    requires w'.sessions[c].up == w.sessions[c].up[1..] && w'.sessions[c].shown == w.sessions[c].shown
    requires w'.sessions[c].inbox == w.sessions[c].inbox
    requires forall d: Conn :: d < |w.sessions| ==> ConnInv(w', d)
    requires forall q :: q in w'.p.hub.queues && w'.p.hub.queues[q].sub.Some? ==>
      Subscribed(w', w'.p.hub.queues[q].sub.value, q)
    requires LogWellFormed(w'.p.hub.vault) && w.p.hub.vault.log <= w'.p.hub.vault.log
    requires forall m :: m in w'.p.hub.vault.number ==> m in w.used
    requires forall n :: n in w'.p.hub.vault.acked ==> n < |w.p.hub.vault.log| && Displayed(w, n)
    ensures WorldInv(w')
  {
    TakenSends(w, w', c);
    forall n | n in w'.p.hub.vault.acked ensures n < |w'.p.hub.vault.log| && Displayed(w', n) {
      DisplayedStays(w, w', n);
    }
  }

  lemma CommandParses(env: Envelope)
    ensures Parse(Wire(env)) == Some(env)
  {
  }

  /** What is upstream of c is what a shipped client sends at that point. */
  lemma FirstCommand(w: World, c: Conn)
    requires WorldInv(w) && c < |w.sessions| && c in w.p.readers && w.sessions[c].up != []
    ensures var s, env := w.sessions[c], w.sessions[c].up[0];
      && Upstream(w.p.hub.vault, w.used, w.p.hub.chans[c].hist, s)
      && (s.replyAt.None? ==>
            && c in w.p.hub.clients && s.up == [env]
            && ((env == NewCommand() && w.p.hub.chans[c].hist == [] && s.phase != WaitSubOk)
                || (env == SubCommand(s.inbox) && ValidQueueID(s.inbox) && (s.phase == WaitSubOk || s.phase == Ended))))
      && (s.replyAt.Some? ==> Talk(w.p.hub.vault, w.used, s, env))
  {
    assert ConnInv(w, c);
    var s := w.sessions[c];
    if s.replyAt.Some? { assert Talk(w.p.hub.vault, w.used, s, s.up[0]); }
  }

  lemma TakenUpstream(v: Vault, used: set<string>, hist: seq<Frame>, hist': seq<Frame>, s: Session)
    requires Upstream(v, used, hist, s) && s.replyAt.Some? && s.up != [] && 0 < s.wired
    ensures Upstream(v, used, hist', Taken(s))
  {
    var s' := Taken(s);
    forall i | 0 <= i < |s'.up| ensures Talk(v, used, s', s'.up[i]) { assert Talk(v, used, s, s.up[i + 1]); }
    if s.pending.Some? { assert Talk(v, used, s, s.pending.value); }
  }

  lemma GrownUpstream(v: Vault, v': Vault, used: set<string>, hist: seq<Frame>, hist': seq<Frame>, s: Session)
    requires Upstream(v, used, hist, s) && (s.replyAt.Some? || hist' == hist)
    requires forall i :: 0 <= i < |s.up| && s.up[i].kind == SEND ==> s.up[i].mid !in v'.number
    ensures Upstream(v', used, hist', s)
  {
    UpstreamGrows(v, v', used, used, hist, s);
    if s.replyAt.Some? {
      forall i | 0 <= i < |s.up| ensures Talk(v', used, s, s.up[i]) { assert Talk(v, used, s, s.up[i]); }
    }
  }

  // ---- SEND ----

  /** A SEND appends at most a DELIVER to its subscriber and an answer to its sender. */
  lemma SendAppends(h: Hub, c: Conn, env: Envelope, now: int, o: Oracle, d: Conn)
    requires c < |h.chans| && d < |h.chans| && Known(h, Cached(h, env.qid).sub)
    ensures var h' := HandleSend(h, c, env, now, o).hub;
      |h'.chans| == |h.chans| &&
      var hist, hist' := h.chans[d].hist, h'.chans[d].hist;
      && hist <= hist'
      && (forall i :: |hist| <= i < |hist'| ==>
            || (hist'[i] == Deliver(env.qid, MessageId(env, o), env.payload)
                && Accepts(h, env, o) && Cached(h, env.qid).sub == Some(d) && i == |hist|)
            || hist'[i].Acked? || hist'[i].Error?)
      && (d != c && Cached(h, env.qid).sub != Some(d) ==> hist' == hist)
  {
    if Accepts(h, env, o) {
      var qid, mid, e := env.qid, MessageId(env, o), Cached(h, env.qid);
      var h2 := h.(queues := h.queues[qid := e],
        vault := Ledger.Touch(Ledger.Accept(h.vault, mid, qid, env.payload, now), qid, now));
      assert HandleSend(h, c, env, now, o) == Forward(h2, c, e.sub, qid, mid, env.payload, o);
      ForwardAppends(h2, c, e.sub, qid, mid, env.payload, o, d);
    }
  }

  lemma ForwardAppends(h: Hub, c: Conn, sub: Option<Conn>, qid: string, mid: string, payload: Payload, o: Oracle,
                       d: Conn)
    requires c < |h.chans| && d < |h.chans| && Known(h, sub)
    ensures var h' := Forward(h, c, sub, qid, mid, payload, o).hub;
      |h'.chans| == |h.chans| &&
      var hist, hist' := h.chans[d].hist, h'.chans[d].hist;
      && hist <= hist'
      && (forall i :: |hist| <= i < |hist'| ==>
            || (hist'[i] == Deliver(qid, mid, payload) && sub == Some(d) && i == |hist|)
            || hist'[i].Acked?)
      && (d != c && sub != Some(d) ==> hist' == hist)
  {
  }

  lemma OrderedAppend(v: Vault, v': Vault, hist: seq<Frame>, hist': seq<Frame>, qid: string)
    requires Ordered(v, hist, qid) && Grows(v, v') && Ledger.LogSound(v) && hist <= hist'
    requires forall i :: |hist| <= i < |hist'| && hist'[i].Deliver? ==>
      i == |hist| && Genuine(v', hist'[i], qid) && v'.number[hist'[i].mid] == |v.log|
    ensures Ordered(v', hist', qid)
  {
    forall i | 0 <= i < |hist'| && hist'[i].Deliver? ensures Genuine(v', hist'[i], qid) {
      if i < |hist| { assert Genuine(v, hist[i], qid); }
    }
    forall i, j | 0 <= i < j < |hist'| && hist'[i].Deliver? && hist'[j].Deliver?
      ensures v'.number[hist'[i].mid] < v'.number[hist'[j].mid]
    {
      assert Genuine(v, hist[i], qid);
      if j < |hist| { assert Genuine(v, hist[j], qid); }
    }
  }

  /** The SEND env of connection c, seen from outside the hub. */
  ghost predicate SendEffect(w: World, w': World, c: Conn, env: Envelope) {
    var v, v' := w.p.hub.vault, w'.p.hub.vault;
    && c < |w.sessions| == |w.p.hub.chans| == |w'.p.hub.chans|
    && w.sessions[c].up != [] && 0 < w.sessions[c].wired && w.sessions[c].up[0] == env && env.kind == SEND
    && w'.sessions == w.sessions[c := Taken(w.sessions[c])]
    && w'.used == w.used && c in w.p.readers && w'.p.readers == w.p.readers && w'.p.hub.clients == w.p.hub.clients
    && Grows(v, v') && LogWellFormed(v') && v'.acked == v.acked
    && (forall m :: m in v'.number ==> m in v.number || m == env.mid)
    && (forall q :: q in w'.p.hub.queues && w'.p.hub.queues[q].sub.Some? ==>
          q in w.p.hub.queues && w.p.hub.queues[q] == w'.p.hub.queues[q])
    && (forall d: Conn :: d < |w.sessions| ==> Appended(w, w', env, d))
  }

  ghost predicate Appended(w: World, w': World, env: Envelope, d: Conn)
    requires d < |w.sessions| == |w.p.hub.chans| == |w'.p.hub.chans|
  {
    var hist, hist' := w.p.hub.chans[d].hist, w'.p.hub.chans[d].hist;
    var v, v' := w.p.hub.vault, w'.p.hub.vault;
    && hist <= hist'
    && (forall i :: |hist| <= i < |hist'| ==>
          || hist'[i].Acked? || hist'[i].Error?
          || (hist'[i].Deliver? && i == |hist| && Cached(w.p.hub, env.qid).sub == Some(d)
              && Genuine(v', hist'[i], env.qid) && v'.number[hist'[i].mid] == |v.log|))
    && (w.sessions[d].replyAt.None? ==> hist' == hist)
  }

  /** The ledger after accepting a fresh id. */
  lemma AcceptGrows(v: Vault, env: Envelope, now: int)
    requires Ledger.Sound(v) && LogWellFormed(v) && env.mid !in v.number
    requires ValidQueueID(env.qid) && ClientValidQID(env.mid) && env.payload.Chat?
    ensures var v' := Ledger.Touch(Ledger.Accept(v, env.mid, env.qid, env.payload, now), env.qid, now);
      && Grows(v, v') && LogWellFormed(v') && v'.acked == v.acked
      && (forall m :: m in v'.number ==> m in v.number || m == env.mid)
      && Genuine(v', Deliver(env.qid, env.mid, env.payload), env.qid) && v'.number[env.mid] == |v.log|
  {
  }

  lemma SendHasEffect(w: World, w': World, c: Conn, env: Envelope, o: Oracle)
    requires WorldInv(w) && Allowed(w, Serve(c, o)) && env == w.sessions[c].up[0] && env.kind == SEND
    requires Known(w.p.hub, Cached(w.p.hub, env.qid).sub)
    requires w' == With(w, c, Taken(w.sessions[c])).(p := w.p.(hub := HandleSend(w.p.hub, c, env, w.p.now, o).hub))
    ensures SendEffect(w, w', c, env)
  {
    var h, h' := w.p.hub, HandleSend(w.p.hub, c, env, w.p.now, o).hub;
    FirstCommand(w, c);
    assert ConnInv(w, c);
    AcceptGrows(h.vault, env, w.p.now);
    SendTables(h, c, env, w.p.now, o);
    SendStores(h, c, env, w.p.now, o);
    SendAppends(h, c, env, w.p.now, o, c);
    forall d: Conn | d < |w.sessions| ensures Appended(w, w', env, d) {
      SendAppends(h, c, env, w.p.now, o, d);
      if Cached(h, env.qid).sub == Some(d) { assert Subscribed(w, d, env.qid); }
    }
  }

  lemma SendKeepsHistory(w: World, w': World, c: Conn, env: Envelope, d: Conn)
    requires WorldInv(w) && SendEffect(w, w', c, env) && d < |w.sessions|
    ensures Ordered(w'.p.hub.vault, w'.p.hub.chans[d].hist, w'.sessions[d].inbox)
    ensures Displays(w'.p.hub.vault, w'.p.hub.chans[d].hist, w'.sessions[d])
  {
    var v, v', s := w.p.hub.vault, w'.p.hub.vault, w.sessions[d];
    var hist, hist' := w.p.hub.chans[d].hist, w'.p.hub.chans[d].hist;
    assert ConnInv(w, d) && Appended(w, w', env, d);
    if Cached(w.p.hub, env.qid).sub == Some(d) { assert Subscribed(w, d, env.qid); }
    OrderedAppend(v, v', hist, hist', s.inbox);
    AppendKeepsDisplays(v, hist, hist', s);
    DisplaysGrows(v, v', hist', s);
    QuietDisplays(v', hist', s, w'.sessions[d]);
  }

  lemma SendKeepsConn(w: World, w': World, c: Conn, env: Envelope, d: Conn)
    requires WorldInv(w) && SendEffect(w, w', c, env) && d < |w.sessions|
    ensures ConnInv(w', d)
  {
    var v, v', s := w.p.hub.vault, w'.p.hub.vault, w.sessions[d];
    var hist, hist' := w.p.hub.chans[d].hist, w'.p.hub.chans[d].hist;
    assert ConnInv(w, d) && Appended(w, w', env, d);
    if Cached(w.p.hub, env.qid).sub == Some(d) { assert Subscribed(w, d, env.qid); }
    SendKeepsHistory(w, w', c, env, d);
    if s.replyAt.Some? { AppendKeepsStarted(hist, hist', s); }
    if d in w.p.readers { SendKeepsUpstream(w, w', c, env, d); }
  }

  lemma SendKeepsUpstream(w: World, w': World, c: Conn, env: Envelope, d: Conn)
    requires WorldInv(w) && SendEffect(w, w', c, env) && d < |w.sessions| && d in w.p.readers
    ensures Upstream(w'.p.hub.vault, w'.used, w'.p.hub.chans[d].hist, w'.sessions[d])
  {
    var v, v', s := w.p.hub.vault, w'.p.hub.vault, w.sessions[d];
    var hist, hist' := w.p.hub.chans[d].hist, w'.p.hub.chans[d].hist;
    assert ConnInv(w, d) && Appended(w, w', env, d);
    var t := if d == c then Taken(s) else s;
    if d == c {
      FirstCommand(w, c);
      TakenUpstream(v, w.used, hist, hist, s);
    }
    forall i | 0 <= i < |t.up| && t.up[i].kind == SEND ensures t.up[i].mid !in v'.number {
      var k := if d == c then i + 1 else i;
      assert InFlight(w, d, k);
      InFlightIsFresh(w, d, k);
      assert InFlight(w, c, 0);
    }
    GrownUpstream(v, v', w.used, hist, hist', t);
  }

  lemma ServeSendKeeps(w: World, w': World, c: Conn, env: Envelope)
    requires WorldInv(w) && SendEffect(w, w', c, env) && ProcessInv(w'.p)
    ensures WorldInv(w')
  {
    FirstCommand(w, c);
    forall d: Conn | d < |w.sessions| ensures ConnInv(w', d) { SendKeepsConn(w, w', c, env, d); }
    forall q | q in w'.p.hub.queues && w'.p.hub.queues[q].sub.Some?
      ensures Subscribed(w', w'.p.hub.queues[q].sub.value, q)
    {
      var d := w.p.hub.queues[q].sub.value;
      assert Subscribed(w, d, q) && Appended(w, w', env, d);
    }
    ServedKeeps(w, w', c);
  }

  // ---- NEW ----

  /** The tables may have changed, the ledger has not. */
  ghost predicate LedgerRests(v: Vault, v': Vault) {
    v'.log == v.log && v'.number == v.number && v'.acked == v.acked
  }

  ghost predicate NewEffect(w: World, w': World, c: Conn) {
    && c < |w.sessions| == |w.p.hub.chans| == |w'.p.hub.chans|
    && w.sessions[c].up == [NewCommand()] && 0 < w.sessions[c].wired
    && w'.sessions == w.sessions[c := Taken(w.sessions[c])]
    && w'.used == w.used && c in w.p.readers && w'.p.readers == w.p.readers && w'.p.hub.clients == w.p.hub.clients
    && LedgerRests(w.p.hub.vault, w'.p.hub.vault)
    && (forall q :: q in w'.p.hub.queues && w'.p.hub.queues[q].sub.Some? ==>
          q in w.p.hub.queues && w.p.hub.queues[q] == w'.p.hub.queues[q])
    && (forall d: Conn :: d < |w.sessions| && d != c ==> w'.p.hub.chans[d].hist == w.p.hub.chans[d].hist)
    && var hist' := w'.p.hub.chans[c].hist;
       |hist'| == 1 && (hist'[0].Error? || (hist'[0].NewOk? && ValidQueueID(hist'[0].qid)))
  }

  lemma NewHasEffect(w: World, w': World, c: Conn, o: Oracle)
    requires WorldInv(w) && Allowed(w, Serve(c, o)) && w.sessions[c].up[0] == NewCommand()
    requires HandleNew(w.p.hub, c, NewCommand(), w.p.now, o).Alive?
    requires w' == With(w, c, Taken(w.sessions[c]))
                     .(p := w.p.(hub := HandleNew(w.p.hub, c, NewCommand(), w.p.now, o).hub))
    ensures NewEffect(w, w', c)
  {
    FirstCommand(w, c);
    ClientCheckIsStricter(o.newId);
    assert w.p.hub.chans[c].hist == [];
  }

  lemma NewKeepsConn(w: World, w': World, c: Conn)
    requires WorldInv(w) && NewEffect(w, w', c)
    ensures ConnInv(w', c)
  {
    var v' := w'.p.hub.vault;
    FirstCommand(w, c);
    NothingShownBeforeReply(w, c);
    assert ConnInv(w, c);
    QuietDisplays(v', w.p.hub.chans[c].hist, w.sessions[c], w'.sessions[c]);
    AppendKeepsDisplays(v', w.p.hub.chans[c].hist, w'.p.hub.chans[c].hist, w'.sessions[c]);
  }

  lemma ServeNewKeeps(w: World, w': World, c: Conn)
    requires WorldInv(w) && NewEffect(w, w', c) && ProcessInv(w'.p)
    ensures WorldInv(w')
  {
    var v, v' := w.p.hub.vault, w'.p.hub.vault;
    FirstCommand(w, c);
    forall d: Conn | d < |w.sessions| ensures ConnInv(w', d) {
      if d == c {
        NewKeepsConn(w, w', c);
      } else {
        forall i | InFlight(w, d, i) ensures w.sessions[d].up[i].mid !in v.number { InFlightIsFresh(w, d, i); }
        BystanderKeeps(w, w', d);
      }
    }
    forall q | q in w'.p.hub.queues && w'.p.hub.queues[q].sub.Some?
      ensures Subscribed(w', w'.p.hub.queues[q].sub.value, q)
    {
      assert Subscribed(w, w.p.hub.queues[q].sub.value, q);
    }
    ServedKeeps(w, w', c);
  }

  // ---- ACK ----

  /** An ACK upstream names a message its session displayed. */
  lemma AckWasDisplayed(w: World, c: Conn)
    requires WorldInv(w) && c < |w.sessions| && c in w.p.readers && w.sessions[c].up != []
    requires w.sessions[c].up[0].kind == ACK
    ensures var v, mid := w.p.hub.vault, w.sessions[c].up[0].mid;
      mid in v.number && v.number[mid] < |v.log| && Displayed(w, v.number[mid])
  {
    FirstCommand(w, c);
    assert ConnInv(w, c);
    var s, hist, v := w.sessions[c], w.p.hub.chans[c].hist, w.p.hub.vault;
    var mid := s.up[0].mid;
    assert ShownIn(s, mid);
    var i :| 0 <= i < |s.shown| && s.shown[i].mid == mid;
    assert ReceivedLine(hist, s, s.shown[i]);
    var j :| 0 <= j < s.recvd && j < |hist| && hist[j] == Deliver(s.inbox, mid, Chat(s.shown[i].text));
    assert Genuine(v, hist[j], s.inbox);
  }

  ghost predicate AckEffect(w: World, w': World, c: Conn) {
    && c < |w.sessions| == |w.p.hub.chans| == |w'.p.hub.chans|
    && w.sessions[c].up != [] && 0 < w.sessions[c].wired && w.sessions[c].up[0].kind == ACK && c in w.p.readers
    && w'.sessions == w.sessions[c := Taken(w.sessions[c])]
    && w'.used == w.used && w'.p.readers == w.p.readers
    && w'.p.hub.clients == w.p.hub.clients && w'.p.hub.queues == w.p.hub.queues && w'.p.hub.chans == w.p.hub.chans
    && w'.p.hub.vault.log == w.p.hub.vault.log && w'.p.hub.vault.number == w.p.hub.vault.number
    && (forall n :: n in w'.p.hub.vault.acked ==> n < |w.p.hub.vault.log| && Displayed(w, n))
  }

  lemma AckKeepsConn(w: World, w': World, c: Conn, d: Conn)
    requires WorldInv(w) && AckEffect(w, w', c) && d < |w.sessions|
    ensures ConnInv(w', d)
  {
    var v, v' := w.p.hub.vault, w'.p.hub.vault;
    FirstCommand(w, c);
    assert ConnInv(w, d);
    var s, s', hist := w.sessions[d], w'.sessions[d], w.p.hub.chans[d].hist;
    OrderedGrows(v, v', hist, s.inbox);
    DisplaysGrows(v, v', hist, s);
    QuietDisplays(v', hist, s, s');
    if d in w.p.readers {
      if d == c { TakenUpstream(v, w.used, hist, hist, s); }
      forall i | 0 <= i < |s'.up| && s'.up[i].kind == SEND ensures s'.up[i].mid !in v'.number {
        var k := if d == c then i + 1 else i;
        assert InFlight(w, d, k);
        InFlightIsFresh(w, d, k);
      }
      GrownUpstream(v, v', w.used, hist, hist, s');
    }
  }

  lemma ServeAckKeeps(w: World, w': World, c: Conn)
    requires WorldInv(w) && AckEffect(w, w', c) && ProcessInv(w'.p)
    ensures WorldInv(w')
  {
    FirstCommand(w, c);
    forall d: Conn | d < |w.sessions| ensures ConnInv(w', d) { AckKeepsConn(w, w', c, d); }
    forall q | q in w'.p.hub.queues && w'.p.hub.queues[q].sub.Some?
      ensures Subscribed(w', w'.p.hub.queues[q].sub.value, q)
    {
      assert Subscribed(w, w.p.hub.queues[q].sub.value, q);
    }
    ServedKeeps(w, w', c);
  }

  // ---- crashes ----

  lemma SendIsFresh(w: World, c: Conn)
    requires WorldInv(w) && c < |w.sessions| && c in w.p.readers && w.sessions[c].up != []
    requires w.sessions[c].up[0].kind == SEND
    ensures var env := w.sessions[c].up[0];
      && env.mid !in w.p.hub.vault.number && env.mid in w.used
      && ValidQueueID(env.qid) && ClientValidQID(env.mid) && env.payload.Chat?
  {
    FirstCommand(w, c);
    assert InFlight(w, c, 0);
    InFlightIsFresh(w, c, 0);
  }

  lemma AckStageLedger(w: World, c: Conn)
    requires WorldInv(w) && c < |w.sessions| && c in w.p.readers && w.sessions[c].up != []
    requires w.sessions[c].up[0].kind == ACK
    ensures var v' := Ledger.Acknowledge(w.p.hub.vault, w.sessions[c].up[0].mid);
      && v'.log == w.p.hub.vault.log && v'.number == w.p.hub.vault.number
      && forall n :: n in v'.acked ==> n < |w.p.hub.vault.log| && Displayed(w, n)
  {
    AckWasDisplayed(w, c);
    Ledger.AcknowledgeTakesOne(w.p.hub.vault, w.sessions[c].up[0].mid);
  }

  lemma AckHasEffect(w: World, w': World, c: Conn, o: Oracle)
    requires WorldInv(w) && Allowed(w, Serve(c, o)) && w.sessions[c].up[0].kind == ACK
    requires HandleAck(w.p.hub, w.sessions[c].up[0], o).Alive?
    requires w' == With(w, c, Taken(w.sessions[c])).(p := w.p.(hub := HandleAck(w.p.hub, w.sessions[c].up[0], o).hub))
    ensures AckEffect(w, w', c)
  {
    AckWasDisplayed(w, c);
    Ledger.AcknowledgeTakesOne(w.p.hub.vault, w.sessions[c].up[0].mid);
  }

  // ---- SUB ----

  /** The replay extends the channel in acceptance order, whatever is dropped. */
  lemma {:induction false} ReplayOrdered(v: Vault, ch: Chan, qid: string, rows: seq<Tables.Row>, o: Oracle, n: nat)
    requires n <= |rows| && LogWellFormed(v)
    requires forall i :: 0 <= i < |ch.hist| ==> !ch.hist[i].Deliver?
    requires forall r :: r in rows ==> Ledger.Booked(v, r) && r.qid == qid
    requires Ledger.Ascending(v, rows)
    ensures var hist' := Replay(ch, qid, rows, o, n).hist;
      && ch.hist <= hist'
      && Ordered(v, hist', qid)
      && (forall i :: |ch.hist| <= i < |hist'| ==> hist'[i].Deliver?)
      && (forall i :: 0 <= i < |hist'| && hist'[i].Deliver? ==>
            n > 0 && rows[n - 1].mid in v.number && v.number[hist'[i].mid] <= v.number[rows[n - 1].mid])
  {
    if n > 0 {
      ReplayOrdered(v, ch, qid, rows, o, n - 1);
      assert n > 1 ==> Ledger.Earlier(v, rows[n - 2], rows[n - 1]);
      var hist1, hist' := Replay(ch, qid, rows, o, n - 1).hist, Replay(ch, qid, rows, o, n).hist;
      assert Ledger.Booked(v, rows[n - 1]);
      OneMoreRow(v, hist1, qid, rows[n - 1]);
      assert hist' == hist1 || hist' == hist1 + [DeliverRow(qid, rows[n - 1])];
    }
  }

  lemma OneMoreRow(v: Vault, hist: seq<Frame>, qid: string, r: Tables.Row)
    requires LogWellFormed(v) && Ordered(v, hist, qid) && Ledger.Booked(v, r) && r.qid == qid
    requires forall i :: 0 <= i < |hist| && hist[i].Deliver? ==> v.number[hist[i].mid] < v.number[r.mid]
    ensures Ordered(v, hist + [DeliverRow(qid, r)], qid)
  {
    var hist' := hist + [DeliverRow(qid, r)];
    assert v.log[v.number[r.mid]].payload.Chat?;
    forall i | 0 <= i < |hist'| && hist'[i].Deliver? ensures Genuine(v, hist'[i], qid) {
      if i < |hist| { assert Genuine(v, hist[i], qid); }
    }
  }

  ghost predicate SubEffect(w: World, w': World, c: Conn) {
    && c < |w.sessions| == |w.p.hub.chans|
    && var s, hist := w.sessions[c], w.p.hub.chans[c].hist;
       && s.up != [] && 0 < s.wired && s.up[0] == SubCommand(s.inbox) && ValidQueueID(s.inbox) && s.replyAt.None?
       && w'.sessions == w.sessions[c := Taken(s).(replyAt := Some(|hist|))]
       && w'.used == w.used && c in w.p.readers && w'.p.readers == w.p.readers
       && SubHub(w.p.hub, w'.p.hub, c, s.inbox)
  }

  /** A SUB of qid over c, as far as it has got when something was sent. */
  ghost predicate SubHub(h: Hub, h': Hub, c: Conn, qid: string) {
    && c < |h.chans| == |h'.chans|
    && LedgerRests(h.vault, h'.vault)
    && (forall d: Conn :: d < |h.chans| && d != c ==> h'.chans[d].hist == h.chans[d].hist)
    && c in h'.clients && h'.clients <= h.clients
    && (forall d :: d in h.clients && d !in h'.clients ==> Cached(h, qid).sub == Some(d) && d != c)
    && (forall q :: q in h'.queues && q != qid && h'.queues[q].sub.Some? ==>
          q in h.queues && h.queues[q] == h'.queues[q])
    && var hist, hist' := h.chans[c].hist, h'.chans[c].hist;
       && hist <= hist' && |hist| < |hist'|
       && (if hist'[|hist|].Error?
           then |hist'| == |hist| + 1 && h'.clients == h.clients && h'.queues == h.queues
           else
             && hist'[|hist|] == SubOk(qid)
             && qid in h'.queues && h'.queues[qid].sub == Some(c)
             && Ordered(h'.vault, hist', qid)
             && (forall i :: |hist| < i < |hist'| ==> hist'[i].Deliver?))
  }

  /** The subscriber's channel after a SUB. */
  lemma SubChannel(h: Hub, c: Conn, qid: string, now: int, o: Oracle)
    requires c < |h.chans| && Known(h, Cached(h, qid).sub) && HandleSub(h, c, qid, now, o).Alive?
    ensures var h' := HandleSub(h, c, qid, now, o).hub;
      |h'.chans| == |h.chans| &&
      if Refuses(h, c, qid, o)
      then exists code :: h'.chans[c] == Push(h.chans[c], Error(code))
      else
        var rows := ReplayRows(h.vault, qid, o);
        && h'.chans[c] == Replay(Push(h.chans[c], SubOk(qid)), qid, rows, o, |rows|)
        && h'.vault == Ledger.Touch(h.vault, qid, now)
  {
    if !Refuses(h, c, qid, o) {
      SubReplays(h, c, qid, now, o);
    } else if LookupError(h, qid, o).Some? {
      assert HandleSub(h, c, qid, now, o).hub.chans[c] == Push(h.chans[c], Error(LookupError(h, qid, o).value));
    } else {
      assert HandleSub(h, c, qid, now, o).hub.chans[c] == Push(h.chans[c], Error(BAD_REQUEST));
    }
  }

  /** The reply to SUB, with the first n rows of the replay behind it. */
  lemma SubAppends(v: Vault, ch: Chan, qid: string, rows: seq<Tables.Row>, o: Oracle, n: nat)
    requires LogWellFormed(v) && Ledger.Ascending(v, rows) && n <= |rows|
    requires forall r :: r in rows ==> Ledger.Booked(v, r) && r.qid == qid
    requires |ch.hist| <= 1 && Bounded(ch) && forall i :: 0 <= i < |ch.hist| ==> Preliminary(ch.hist[i])
    ensures SubReplied(v, ch.hist, Replay(Push(ch, SubOk(qid)), qid, rows, o, n).hist, qid, false)
  {
    var ok := Push(ch, SubOk(qid));
    assert ok.hist == ch.hist + [SubOk(qid)];
    ReplayOrdered(v, ok, qid, rows, o, n);
    var hist' := Replay(ok, qid, rows, o, n).hist;
    assert hist'[|ch.hist|] == ok.hist[|ch.hist|];
  }

  lemma SubTables(h: Hub, c: Conn, qid: string, now: int, o: Oracle)
    requires c < |h.chans| && Known(h, Cached(h, qid).sub) && HandleSub(h, c, qid, now, o).Alive?
    ensures var h' := HandleSub(h, c, qid, now, o).hub; var e := Cached(h, qid);
      && LedgerRests(h.vault, h'.vault) && |h'.chans| == |h.chans|
      && (forall d: Conn :: d < |h.chans| && d != c ==> h'.chans[d].hist == h.chans[d].hist)
      && h'.clients <= h.clients && (forall d :: d in h.clients && d !in h'.clients ==> e.sub == Some(d) && d != c)
      && (if LookupError(h, qid, o).Some? || e.owner == Some(c)
          then h'.clients == h.clients && h'.queues == h.queues
          else h'.queues == h.queues[qid := e.(sub := Some(c))])
  {
  }

  lemma ReplayRowsAscend(v: Vault, now: int, qid: string, o: Oracle)
    requires Ledger.Sound(v) && Ledger.Timely(v, now)
    ensures Ledger.Ascending(v, ReplayRows(v, qid, o))
    ensures forall r :: r in ReplayRows(v, qid, o) ==> Ledger.Booked(v, r) && r.qid == qid
  {
    Ledger.ReplayIsAcceptanceOrder(v, now, qid);
  }

  /** hist' answers a SUB of qid on a channel that held hist. */
  ghost predicate SubReplied(v: Vault, hist: seq<Frame>, hist': seq<Frame>, qid: string, refused: bool) {
    && |hist| < |hist'| && hist <= hist'
    && if refused then |hist'| == |hist| + 1 && hist'[|hist|].Error?
       else
         && hist'[|hist|] == SubOk(qid) && Ordered(v, hist', qid)
         && (forall i :: |hist| < i < |hist'| ==> hist'[i].Deliver?)
  }

  lemma SubHist(h: Hub, c: Conn, qid: string, now: int, o: Oracle)
    requires c < |h.chans| && Known(h, Cached(h, qid).sub) && HandleSub(h, c, qid, now, o).Alive?
    requires Ledger.Sound(h.vault) && Ledger.Timely(h.vault, now) && LogWellFormed(h.vault)
    requires var ch := h.chans[c];
      |ch.hist| <= 1 && Bounded(ch) && forall i :: 0 <= i < |ch.hist| ==> Preliminary(ch.hist[i])
    ensures var h' := HandleSub(h, c, qid, now, o).hub;
      |h'.chans| == |h.chans| && SubReplied(h'.vault, h.chans[c].hist, h'.chans[c].hist, qid, Refuses(h, c, qid, o))
  {
    SubChannel(h, c, qid, now, o);
    if !Refuses(h, c, qid, o) {
      ReplayRowsAscend(h.vault, now, qid, o);
      SubAppends(h.vault, h.chans[c], qid, ReplayRows(h.vault, qid, o), o, |ReplayRows(h.vault, qid, o)|);
      OrderedGrows(h.vault, Ledger.Touch(h.vault, qid, now), HandleSub(h, c, qid, now, o).hub.chans[c].hist, qid);
    }
  }

  lemma SubHasEffect(w: World, w': World, c: Conn, o: Oracle)
    requires WorldInv(w) && Allowed(w, Serve(c, o)) && w.sessions[c].up[0] == SubCommand(w.sessions[c].inbox)
    requires ValidQueueID(w.sessions[c].inbox) && Known(w.p.hub, Cached(w.p.hub, w.sessions[c].inbox).sub)
    requires HandleSub(w.p.hub, c, w.sessions[c].inbox, w.p.now, o).Alive?
    requires w' == With(w, c, Taken(w.sessions[c]).(replyAt := Some(|w.p.hub.chans[c].hist|)))
                     .(p := w.p.(hub := HandleSub(w.p.hub, c, w.sessions[c].inbox, w.p.now, o).hub))
    ensures SubEffect(w, w', c)
  {
    FirstCommand(w, c);
    SubTables(w.p.hub, c, w.sessions[c].inbox, w.p.now, o);
    SubHistOf(w, c, o);
  }

  lemma SubHistOf(w: World, c: Conn, o: Oracle)
    requires WorldInv(w) && c < |w.sessions| && c in w.p.readers && w.sessions[c].up != []
    requires w.sessions[c].up[0] == SubCommand(w.sessions[c].inbox)
    requires Known(w.p.hub, Cached(w.p.hub, w.sessions[c].inbox).sub)
    requires HandleSub(w.p.hub, c, w.sessions[c].inbox, w.p.now, o).Alive?
    ensures w.sessions[c].replyAt.None?
    ensures var h, qid := w.p.hub, w.sessions[c].inbox; var h' := HandleSub(h, c, qid, w.p.now, o).hub;
      |h'.chans| == |h.chans| && SubReplied(h'.vault, h.chans[c].hist, h'.chans[c].hist, qid, Refuses(h, c, qid, o))
  {
    FirstCommand(w, c);
    assert ConnInv(w, c);
    SubHist(w.p.hub, c, w.sessions[c].inbox, w.p.now, o);
  }

  lemma SubKeepsConn(w: World, w': World, c: Conn)
    requires WorldInv(w) && SubEffect(w, w', c)
    ensures ConnInv(w', c)
  {
    FirstCommand(w, c);
    SubKeepsDisplays(w, w', c);
    SubStarts(w, w', c);
    assert ConnInv(w, c);
    assert w'.sessions[c].up == [];
  }

  lemma SubStarts(w: World, w': World, c: Conn)
    requires WorldInv(w) && SubEffect(w, w', c)
    ensures Started(w'.p.hub.chans[c].hist, w'.sessions[c])
    ensures Ordered(w'.p.hub.vault, w'.p.hub.chans[c].hist, w'.sessions[c].inbox)
    ensures forall f :: f in w'.p.hub.chans[c].hist && f.NewOk? ==> ValidQueueID(f.qid)
  {
    FirstCommand(w, c);
    assert ConnInv(w, c);
    var hist, hist' := w.p.hub.chans[c].hist, w'.p.hub.chans[c].hist;
    assert forall i :: 0 <= i < |hist| ==> Preliminary(hist[i]) && hist'[i] == hist[i];
    if hist'[|hist|].Error? { OrderedWithout(w'.p.hub.vault, hist', w.sessions[c].inbox); }
  }

  lemma OrderedWithout(v: Vault, hist: seq<Frame>, qid: string)
    requires forall i :: 0 <= i < |hist| ==> !hist[i].Deliver?
    ensures Ordered(v, hist, qid)
  {
  }

  lemma SubKeepsDisplays(w: World, w': World, c: Conn)
    requires WorldInv(w) && SubEffect(w, w', c)
    ensures Displays(w'.p.hub.vault, w'.p.hub.chans[c].hist, w'.sessions[c])
  {
    assert ConnInv(w, c);
    var s, hist, hist' := w.sessions[c], w.p.hub.chans[c].hist, w'.p.hub.chans[c].hist;
    var v, v' := w.p.hub.vault, w'.p.hub.vault;
    AppendKeepsDisplays(v, hist, hist', s);
    DisplaysGrows(v, v', hist', s);
    QuietDisplays(v', hist', s, w'.sessions[c]);
  }

  lemma ServeSubKeeps(w: World, w': World, c: Conn)
    requires WorldInv(w) && SubEffect(w, w', c) && ProcessInv(w'.p)
    ensures WorldInv(w')
  {
    var h, h', qid := w.p.hub, w'.p.hub, w.sessions[c].inbox;
    FirstCommand(w, c);
    forall d: Conn | d < |w.sessions| ensures ConnInv(w', d) {
      if d == c {
        SubKeepsConn(w, w', c);
      } else {
        if d in h.clients && d !in h'.clients { assert Subscribed(w, d, qid); }
        forall i | InFlight(w, d, i) ensures w.sessions[d].up[i].mid !in h.vault.number { InFlightIsFresh(w, d, i); }
        BystanderKeeps(w, w', d);
      }
    }
    forall q | q in h'.queues && h'.queues[q].sub.Some?
      ensures Subscribed(w', h'.queues[q].sub.value, q)
    {
      var d := h'.queues[q].sub.value;
      if q != qid || h'.queues == h.queues {
        assert Cached(h, qid).sub == Some(d) ==> Subscribed(w, d, qid);
        assert Subscribed(w, d, q);
      }
    }
    ServedKeeps(w, w', c);
  }

  // ---- any command ----

  /** Among shipped clients only the SEND of a kicked connection crashes the server. */
  lemma CrashIsKickedSend(w: World, c: Conn, o: Oracle)
    requires WorldInv(w) && Allowed(w, Serve(c, o))
    ensures Read(w.p.hub, c, Wire(w.sessions[c].up[0]), w.p.now, o).Crashed?
       <==> w.sessions[c].up[0].kind == SEND && c !in w.p.hub.clients
  {
    var env := w.sessions[c].up[0];
    FirstCommand(w, c);
    CommandParses(env);
    CrashesExactlyWhenFatal(w.p, c, Wire(env), o);
    if env.kind == SEND && Cached(w.p.hub, env.qid).sub.Some? {
      assert Subscribed(w, Cached(w.p.hub, env.qid).sub.value, env.qid);
    }
  }

  /** The state after a command the hub survived. */
  function AfterServe(w: World, c: Conn, h': Hub): World
    requires c < |w.sessions| && c < |w.p.hub.chans| && w.sessions[c].up != [] && 0 < w.sessions[c].wired
  {
    var s := Taken(w.sessions[c]);
    var s' := if w.sessions[c].up[0].kind == SUB then s.(replyAt := Some(|w.p.hub.chans[c].hist|)) else s;
    With(w, c, s').(p := w.p.(hub := h'))
  }

  lemma AfterNew(w: World, c: Conn, o: Oracle, h': Hub)
    requires WorldInv(w) && Allowed(w, Serve(c, o)) && w.sessions[c].up[0].kind == NEW
    requires Handle(w.p.hub, c, w.sessions[c].up[0], w.p.now, o) == Alive(h')
    requires ProcessInv(AfterServe(w, c, h').p)
    ensures WorldInv(AfterServe(w, c, h'))
  {
    FirstCommand(w, c);
    NewHasEffect(w, AfterServe(w, c, h'), c, o);
    ServeNewKeeps(w, AfterServe(w, c, h'), c);
  }

  lemma AfterSub(w: World, c: Conn, o: Oracle, h': Hub)
    requires WorldInv(w) && Allowed(w, Serve(c, o)) && w.sessions[c].up[0].kind == SUB
    requires Handle(w.p.hub, c, w.sessions[c].up[0], w.p.now, o) == Alive(h')
    requires ProcessInv(AfterServe(w, c, h').p)
    ensures WorldInv(AfterServe(w, c, h'))
  {
    FirstCommand(w, c);
    assert ConnInv(w, c);
    CachedIsReferenced(w.p.hub, w.p.birth, w.sessions[c].inbox);
    SubHasEffect(w, AfterServe(w, c, h'), c, o);
    ServeSubKeeps(w, AfterServe(w, c, h'), c);
  }

  /** Also when it crashes: then h' is what the panic found. */
  lemma AfterSend(w: World, c: Conn, o: Oracle, h': Hub)
    requires WorldInv(w) && Allowed(w, Serve(c, o)) && w.sessions[c].up[0].kind == SEND
    requires Handle(w.p.hub, c, w.sessions[c].up[0], w.p.now, o).hub == h'
    requires ProcessInv(AfterServe(w, c, h').p)
    ensures WorldInv(AfterServe(w, c, h'))
  {
    FirstCommand(w, c);
    CachedIsReferenced(w.p.hub, w.p.birth, w.sessions[c].up[0].qid);
    SendHasEffect(w, AfterServe(w, c, h'), c, w.sessions[c].up[0], o);
    ServeSendKeeps(w, AfterServe(w, c, h'), c, w.sessions[c].up[0]);
  }

  lemma AfterAck(w: World, c: Conn, o: Oracle, h': Hub)
    requires WorldInv(w) && Allowed(w, Serve(c, o)) && w.sessions[c].up[0].kind == ACK
    requires Handle(w.p.hub, c, w.sessions[c].up[0], w.p.now, o) == Alive(h')
    requires ProcessInv(AfterServe(w, c, h').p)
    ensures WorldInv(AfterServe(w, c, h'))
  {
    FirstCommand(w, c);
    AckHasEffect(w, AfterServe(w, c, h'), c, o);
    ServeAckKeeps(w, AfterServe(w, c, h'), c);
  }

  lemma ServeKeeps(w: World, c: Conn, o: Oracle)
    requires WorldInv(w) && Allowed(w, Serve(c, o))
    ensures WorldInv(Moved(w, Serve(c, o)))
  {
    ServedOrCrashed(w, c, o);
    var out := Read(w.p.hub, c, Wire(w.sessions[c].up[0]), w.p.now, o);
    if out.Crashed? { StoppedKeeps(AfterServe(w, c, out.hub)); }
  }

  /** What handling the command leaves, before the process ends if it crashed. */
  lemma ServedOrCrashed(w: World, c: Conn, o: Oracle)
    requires WorldInv(w) && Allowed(w, Serve(c, o))
    ensures WorldInv(AfterServe(w, c, Read(w.p.hub, c, Wire(w.sessions[c].up[0]), w.p.now, o).hub))
  {
    var env := w.sessions[c].up[0];
    FirstCommand(w, c);
    CommandParses(env);
    HandledIsSound(w.p, c, Wire(env), o);
    CrashIsKickedSend(w, c, o);
    var out := Read(w.p.hub, c, Wire(env), w.p.now, o);
    match env.kind
    case NEW => AfterNew(w, c, o, out.hub);
    case SUB => AfterSub(w, c, o, out.hub);
    case SEND => AfterSend(w, c, o, out.hub);
    case ACK => AfterAck(w, c, o, out.hub);
  }

  /** The process may end at any moment. */
  lemma StoppedKeeps(w: World)
    requires WorldInv(w)
    ensures WorldInv(w.(p := Rebooted(w.p, w.p.hub)))
  {
    HubInvIsIndexed(w.p.hub, w.p.birth);
    ServerKeeps(w, Restart);
  }

  // ---- ends in the middle of a command ----

  /** Nothing was sent yet, and the tables are sound. */
  ghost predicate Unsent(w: World, g: Hub) {
    && SameHist(w.p.hub, g) && Grows(w.p.hub.vault, g.vault) && LogWellFormed(g.vault)
    && (forall m :: m in g.vault.number ==> m in w.used)
    && g.vault.acked == w.p.hub.vault.acked
  }

  /** A crash in g while the first command of c is handled. */
  function EndedIn(w: World, c: Conn, g: Hub): World
    requires c < |w.sessions| == |w.p.hub.chans| && w.sessions[c].up != [] && 0 < w.sessions[c].wired
  {
    With(w, c, Replied(w, c, Rebooted(w.p, g).hub)).(p := Rebooted(w.p, g))
  }

  lemma UnsentKeeps(w: World, c: Conn, g: Hub)
    requires WorldInv(w) && c < |w.sessions| && w.sessions[c].up != [] && 0 < w.sessions[c].wired
    requires ProcessInv(Rebooted(w.p, g)) && Unsent(w, g)
    ensures WorldInv(EndedIn(w, c, g))
  {
    CrashKeeps(w, EndedIn(w, c, g), c, g);
  }

  lemma SentKeeps(w: World, c: Conn, g: Hub)
    requires c < |w.sessions| == |w.p.hub.chans| && w.sessions[c].up != [] && 0 < w.sessions[c].wired
    requires WorldInv(AfterServe(w, c, g))
    ensures WorldInv(EndedIn(w, c, g))
  {
    assert ConnInv(AfterServe(w, c, g), c);
    assert Replied(w, c, Rebooted(w.p, g).hub) == AfterServe(w, c, g).sessions[c];
    StoppedKeeps(AfterServe(w, c, g));
  }

  // ---- ends in the middle of SEND ----

  /** A stored message has reached its subscriber, and the sender was not told. */
  lemma DeliveredHasEffect(w: World, c: Conn, o: Oracle, touched: Hub, d: Conn)
    requires WorldInv(w) && Allowed(w, Serve(c, o)) && w.sessions[c].up[0].kind == SEND
    requires var env := w.sessions[c].up[0];
      && Cached(w.p.hub, env.qid).sub == Some(d) && d < |w.p.hub.chans|
      && touched == w.p.hub.(vault := Ledger.Touch(
           Ledger.Accept(w.p.hub.vault, env.mid, env.qid, env.payload, w.p.now), env.qid, w.p.now))
    ensures var env := w.sessions[c].up[0]; var g := SendTo(touched, d, Deliver(env.qid, env.mid, env.payload)).hub;
      SendEffect(w, AfterServe(w, c, g), c, env)
  {
    var h, env := w.p.hub, w.sessions[c].up[0];
    SendIsFresh(w, c);
    AcceptGrows(h.vault, env, w.p.now);
    var g := SendTo(touched, d, Deliver(env.qid, env.mid, env.payload)).hub;
    assert Subscribed(w, d, env.qid);
    forall e: Conn | e < |w.sessions| ensures Appended(w, AfterServe(w, c, g), env, e) {
      assert e != d ==> g.chans[e] == h.chans[e];
    }
  }

  lemma SendBetweenEnds(w: World, c: Conn, o: Oracle, i: nat)
    requires WorldInv(w) && Allowed(w, Serve(c, o)) && w.sessions[c].up[0].kind == SEND
    requires i < |Between(w.p.hub, c, w.sessions[c].up[0], w.p.now, o)|
    requires i >= 3 ==> ProcessInv(AfterServe(w, c, Between(w.p.hub, c, w.sessions[c].up[0], w.p.now, o)[i]).p)
    ensures var g := Between(w.p.hub, c, w.sessions[c].up[0], w.p.now, o)[i];
      if i < 3 then Unsent(w, g) else WorldInv(AfterServe(w, c, g))
  {
    var h, env := w.p.hub, w.sessions[c].up[0];
    SendIsFresh(w, c);
    AcceptGrows(h.vault, env, w.p.now);
    if i > 0 {
      SendBetweenAt(h, c, env, w.p.now, o, i);
      if i == 3 {
        var touched := h.(vault := Ledger.Touch(
          Ledger.Accept(h.vault, env.mid, env.qid, env.payload, w.p.now), env.qid, w.p.now));
        DeliveredHasEffect(w, c, o, touched, Cached(h, env.qid).sub.value);
        ServeSendKeeps(w, AfterServe(w, c, Between(h, c, env, w.p.now, o)[i]), c, env);
      }
    }
  }

  // ---- ends in the middle of SUB ----

  lemma TakePlaceTables(h: Hub, c: Conn, qid: string)
    requires c < |h.chans| && Known(h, Cached(h, qid).sub)
    ensures TookPlace(h, TakePlace(h, c, qid), c, qid) && SameHist(h, TakePlace(h, c, qid))
    ensures TakePlace(h, c, qid).chans[c] == h.chans[c]
  {
  }

  /** The tables and the other channels after c has become the subscriber of qid. */
  ghost predicate TookPlace(h: Hub, g: Hub, c: Conn, qid: string)
    requires c < |h.chans|
  {
    && |g.chans| == |h.chans| && g.vault == h.vault
    && (forall d: Conn :: d < |h.chans| && d != c ==> g.chans[d].hist == h.chans[d].hist)
    && g.clients <= h.clients
    && (forall d :: d in h.clients && d !in g.clients ==> Cached(h, qid).sub == Some(d) && d != c)
    && g.queues == h.queues[qid := Cached(h, qid).(sub := Some(c))]
  }

  lemma AnsweredTables(h: Hub, c: Conn, qid: string, o: Oracle, n: nat)
    requires c < |h.chans| && Known(h, Cached(h, qid).sub) && n <= |ReplayRows(h.vault, qid, o)|
    ensures var g := Answered(TakePlace(h, c, qid), c, qid, o, n);
      && TookPlace(h, g, c, qid)
      && g.chans[c] == Replay(Push(h.chans[c], SubOk(qid)), qid, ReplayRows(h.vault, qid, o), o, n)
  {
    TakePlaceTables(h, c, qid);
  }

  lemma GrantedIsSub(h: Hub, g: Hub, c: Conn, qid: string)
    requires c < |h.chans| && c in h.clients && TookPlace(h, g, c, qid)
    requires SubReplied(h.vault, h.chans[c].hist, g.chans[c].hist, qid, false)
    ensures SubHub(h, g, c, qid)
  {
  }

  /** SUB_OK was enqueued, and some of the replay. */
  lemma AnsweredHasEffect(w: World, c: Conn, o: Oracle, n: nat)
    requires WorldInv(w) && Allowed(w, Serve(c, o)) && w.sessions[c].up[0] == SubCommand(w.sessions[c].inbox)
    requires Known(w.p.hub, Cached(w.p.hub, w.sessions[c].inbox).sub)
    requires n <= |ReplayRows(w.p.hub.vault, w.sessions[c].inbox, o)|
    ensures var g := Answered(TakePlace(w.p.hub, c, w.sessions[c].inbox), c, w.sessions[c].inbox, o, n);
      SubEffect(w, AfterServe(w, c, g), c)
  {
    var h, qid := w.p.hub, w.sessions[c].inbox;
    FirstCommand(w, c);
    AnsweredTables(h, c, qid, o, n);
    AnsweredHist(w, c, o, n);
    GrantedIsSub(h, Answered(TakePlace(h, c, qid), c, qid, o, n), c, qid);
  }

  lemma AnsweredHist(w: World, c: Conn, o: Oracle, n: nat)
    requires WorldInv(w) && c < |w.sessions| && c in w.p.readers && w.sessions[c].up != []
    requires w.sessions[c].up[0] == SubCommand(w.sessions[c].inbox)
    requires n <= |ReplayRows(w.p.hub.vault, w.sessions[c].inbox, o)|
    ensures w.sessions[c].replyAt.None?
    ensures var ch, qid := w.p.hub.chans[c], w.sessions[c].inbox;
      var rows := ReplayRows(w.p.hub.vault, qid, o);
      SubReplied(w.p.hub.vault, ch.hist, Replay(Push(ch, SubOk(qid)), qid, rows, o, n).hist, qid, false)
  {
    FirstCommand(w, c);
    assert ConnInv(w, c);
    var v, qid := w.p.hub.vault, w.sessions[c].inbox;
    ReplayRowsAscend(v, w.p.now, qid, o);
    SubAppends(v, w.p.hub.chans[c], qid, ReplayRows(v, qid, o), o, n);
  }

  lemma SubNotAnswered(w: World, c: Conn, o: Oracle, i: nat, g: Hub)
    requires WorldInv(w) && Allowed(w, Serve(c, o)) && w.sessions[c].up[0].kind == SUB && i < 2
    requires i < |Between(w.p.hub, c, w.sessions[c].up[0], w.p.now, o)|
    requires g == Between(w.p.hub, c, w.sessions[c].up[0], w.p.now, o)[i]
    ensures Unsent(w, g)
  {
    if i == 1 {
      SubBetweenAt(w.p.hub, c, w.sessions[c].up[0], w.p.now, o, i);
      TakePlaceTables(w.p.hub, c, w.sessions[c].up[0].qid);
    }
    HubIsUnsent(w, g);
  }

  /** g is a SUB's hub with SUB_OK and n rows offered. */
  ghost predicate PartlyAnswered(w: World, c: Conn, o: Oracle, n: nat, g: Hub)
    requires c < |w.sessions| == |w.p.hub.chans|
  {
    var h, qid := w.p.hub, w.sessions[c].inbox;
    && Known(h, Cached(h, qid).sub) && n <= |ReplayRows(h.vault, qid, o)|
    && g == Answered(TakePlace(h, c, qid), c, qid, o, n)
  }

  lemma SubAnswered(w: World, c: Conn, o: Oracle, n: nat, g: Hub)
    requires WorldInv(w) && Allowed(w, Serve(c, o)) && w.sessions[c].up[0] == SubCommand(w.sessions[c].inbox)
    requires PartlyAnswered(w, c, o, n, g) && ProcessInv(AfterServe(w, c, g).p)
    ensures WorldInv(AfterServe(w, c, g))
  {
    AnsweredHasEffect(w, c, o, n);
    ServeSubKeeps(w, AfterServe(w, c, g), c);
  }

  lemma IsPartlyAnswered(w: World, c: Conn, o: Oracle, i: nat)
    requires c < |w.sessions| == |w.p.hub.chans| && w.sessions[c].up != []
    requires w.sessions[c].up[0] == SubCommand(w.sessions[c].inbox)
    requires Known(w.p.hub, Cached(w.p.hub, w.sessions[c].inbox).sub)
    requires 2 <= i < |Between(w.p.hub, c, w.sessions[c].up[0], w.p.now, o)|
    ensures PartlyAnswered(w, c, o, i - 2, Between(w.p.hub, c, w.sessions[c].up[0], w.p.now, o)[i])
  {
    SubBetweenAt(w.p.hub, c, w.sessions[c].up[0], w.p.now, o, i);
  }

  lemma HubIsUnsent(w: World, g: Hub)
    requires SameHist(w.p.hub, g) && g.vault == w.p.hub.vault
    requires LogWellFormed(w.p.hub.vault) && forall m :: m in w.p.hub.vault.number ==> m in w.used
    ensures Unsent(w, g)
  {
  }

  lemma SubStageIsSound(p: Process, c: Conn, env: Envelope, o: Oracle, i: nat)
    requires ProcessInv(p) && Enabled(p, Incoming(c, Wire(env), o)) && 2 <= i < |Between(p.hub, c, env, p.now, o)|
    requires env.kind == SUB
    ensures ProcessInv(p.(hub := Between(p.hub, c, env, p.now, o)[i]))
  {
    var g := Between(p.hub, c, env, p.now, o)[i];
    StagesKeep(p.hub, p.birth, c, env, p.now, o);
    assert Stages(p.hub, c, env, p.now, o)[i] == g;
    SubBetweenAt(p.hub, c, env, p.now, o, i);
    TakePlaceMembers(p.hub, c, env.qid);
  }

  lemma TakePlaceMembers(h: Hub, c: Conn, qid: string)
    requires Known(h, Cached(h, qid).sub)
    ensures SameMembers(h, TakePlace(h, c, qid))
  {
  }

  lemma SendStageIsSound(p: Process, c: Conn, env: Envelope, o: Oracle, i: nat)
    requires ProcessInv(p) && Enabled(p, Incoming(c, Wire(env), o)) && 3 <= i < |Between(p.hub, c, env, p.now, o)|
    requires env.kind == SEND
    ensures ProcessInv(p.(hub := Between(p.hub, c, env, p.now, o)[i]))
  {
    var g := Between(p.hub, c, env, p.now, o)[i];
    StagesKeep(p.hub, p.birth, c, env, p.now, o);
    assert Stages(p.hub, c, env, p.now, o)[i] == g;
    SendBetweenAt(p.hub, c, env, p.now, o, i);
    HandleKeepsSwept(p.hub, c, env, p.now, o, p.sweeper);
    SendStores(p.hub, c, env, p.now, o);
  }

  lemma NewBetweenEnds(w: World, c: Conn, o: Oracle, i: nat)
    requires Allowed(w, Serve(c, o)) && w.sessions[c].up[0].kind == NEW
    requires LogWellFormed(w.p.hub.vault) && forall m :: m in w.p.hub.vault.number ==> m in w.used
    requires i < |Between(w.p.hub, c, w.sessions[c].up[0], w.p.now, o)|
    ensures Unsent(w, Between(w.p.hub, c, w.sessions[c].up[0], w.p.now, o)[i])
  {
  }

  /** Wherever the process ends, either nothing was sent yet, or what it ended in would have
      been a world in order. */
  lemma BetweenEnds(w: World, c: Conn, o: Oracle, i: nat)
    requires WorldInv(w) && Allowed(w, Serve(c, o))
    requires i < |Between(w.p.hub, c, w.sessions[c].up[0], w.p.now, o)|
    ensures var g := Between(w.p.hub, c, w.sessions[c].up[0], w.p.now, o)[i];
      Unsent(w, g) || WorldInv(AfterServe(w, c, g))
  {
    var env := w.sessions[c].up[0];
    var g := Between(w.p.hub, c, env, w.p.now, o)[i];
    FirstCommand(w, c);
    match env.kind
    case NEW => NewBetweenEnds(w, c, o, i);
    case SUB =>
      if i >= 2 {
        SubStageIsSound(w.p, c, env, o, i);
        IsPartlyAnswered(w, c, o, i);
        SubAnswered(w, c, o, i - 2, g);
      } else {
        SubNotAnswered(w, c, o, i, g);
      }
    case SEND =>
      if i >= 3 { SendStageIsSound(w.p, c, env, o, i); }
      SendBetweenEnds(w, c, o, i);
    case ACK =>
  }

  lemma StageEnds(w: World, c: Conn, o: Oracle, stage: nat)
    requires WorldInv(w) && Allowed(w, Serve(c, o))
    requires stage < |Stages(w.p.hub, c, w.sessions[c].up[0], w.p.now, o)|
    requires ProcessInv(Rebooted(w.p, Stages(w.p.hub, c, w.sessions[c].up[0], w.p.now, o)[stage]))
    ensures WorldInv(EndedIn(w, c, Stages(w.p.hub, c, w.sessions[c].up[0], w.p.now, o)[stage]))
  {
    var g := Stages(w.p.hub, c, w.sessions[c].up[0], w.p.now, o)[stage];
    if stage < |Between(w.p.hub, c, w.sessions[c].up[0], w.p.now, o)| {
      BetweenEnds(w, c, o, stage);
    } else {
      ServedOrCrashed(w, c, o);
    }
    if Unsent(w, g) { UnsentKeeps(w, c, g); } else { SentKeeps(w, c, g); }
  }

  lemma DieServingKeeps(w: World, c: Conn, o: Oracle, stage: nat)
    requires WorldInv(w) && Allowed(w, DieServing(c, o, stage))
    ensures WorldInv(Moved(w, DieServing(c, o, stage)))
  {
    StepKeeps(w.p, Die(c, w.sessions[c].up[0], o, stage));
    StageEnds(w, c, o, stage);
  }
}
