/** Every move of the world keeps WorldInv. */
module WorldProofs {
  import opened Ids
  import opened Frames
  import opened Relay
  import opened Steps
  import opened Invariants
  import opened Chat
  import opened World

  /** The log is extended and no number is reassigned. */
  ghost predicate Grows(v: Vault, v': Vault) {
    v.log <= v'.log && forall m :: m in v.number ==> m in v'.number && v'.number[m] == v.number[m]
  }

  lemma OrderedGrows(v: Vault, v': Vault, hist: seq<Frame>, qid: string)
    requires Grows(v, v') && Ordered(v, hist, qid)
    ensures Ordered(v', hist, qid)
  {
    forall i | 0 <= i < |hist| && hist[i].Deliver? ensures Genuine(v', hist[i], qid) {
      assert Genuine(v, hist[i], qid);
    }
  }

  lemma DisplaysGrows(v: Vault, v': Vault, hist: seq<Frame>, s: Session)
    requires Grows(v, v') && Displays(v, hist, s)
    ensures Displays(v', hist, s)
  {
  }

  lemma UpstreamGrows(v: Vault, v': Vault, used: set<string>, used': set<string>, hist: seq<Frame>, s: Session)
    requires Upstream(v, used, hist, s) && used <= used'
    requires forall i :: 0 <= i < |s.up| && s.up[i].kind == SEND ==> s.up[i].mid !in v'.number
    ensures Upstream(v', used', hist, s)
  {
    if s.replyAt.Some? {
      forall i | 0 <= i < |s.up| ensures Talk(v', used', s, s.up[i]) { assert Talk(v, used, s, s.up[i]); }
    }
  }

  /** A connection nothing happens to. */
  lemma BystanderKeeps(w: World, w': World, c: Conn)
    requires c < |w.sessions| == |w.p.hub.chans| && c < |w'.sessions| == |w'.p.hub.chans|
    requires ConnInv(w, c)
    requires w'.sessions[c] == w.sessions[c] && w'.p.hub.chans[c].hist == w.p.hub.chans[c].hist
    requires Grows(w.p.hub.vault, w'.p.hub.vault) && w.used <= w'.used
    requires c in w'.p.readers ==> c in w.p.readers
    requires c in w'.p.readers && w.sessions[c].replyAt.None? && c in w.p.hub.clients ==> c in w'.p.hub.clients
    requires c in w'.p.readers ==> forall i :: InFlight(w, c, i) ==> w.sessions[c].up[i].mid !in w'.p.hub.vault.number
    ensures ConnInv(w', c)
  {
    var s, hist := w.sessions[c], w.p.hub.chans[c].hist;
    OrderedGrows(w.p.hub.vault, w'.p.hub.vault, hist, s.inbox);
    DisplaysGrows(w.p.hub.vault, w'.p.hub.vault, hist, s);
    if c in w'.p.readers {
      forall i | 0 <= i < |s.up| && s.up[i].kind == SEND ensures s.up[i].mid !in w'.p.hub.vault.number {
        assert InFlight(w, c, i);
      }
      UpstreamGrows(w.p.hub.vault, w'.p.hub.vault, w.used, w'.used, hist, s);
    }
  }

  /** SENDs in flight are fresh. */
  lemma InFlightIsFresh(w: World, c: Conn, i: int)
    requires WorldInv(w) && InFlight(w, c, i)
    ensures w.sessions[c].replyAt.Some? && Talk(w.p.hub.vault, w.used, w.sessions[c], w.sessions[c].up[i])
  {
    assert ConnInv(w, c);
    var s := w.sessions[c];
    assert Upstream(w.p.hub.vault, w.used, w.p.hub.chans[c].hist, s);
    if s.replyAt.Some? { assert Talk(w.p.hub.vault, w.used, s, s.up[i]); }
  }

  lemma NoElements<T>(s: seq<T>)
    requires forall x :: x !in s
    ensures s == []
  {
    forall x ensures multiset(s)[x] == 0 { assert x !in s; }
    assert |multiset(s)| == |s|;
  }

  /** Without a reply to SUB nothing was displayed. */
  lemma NothingShownBeforeReply(w: World, c: Conn)
    requires |w.sessions| == |w.p.hub.chans| && c < |w.sessions| && ConnInv(w, c) && w.sessions[c].replyAt.None?
    ensures w.sessions[c].shown == [] && w.sessions[c].seen == {}
  {
    var s, hist := w.sessions[c], w.p.hub.chans[c].hist;
    forall l ensures !ReceivedLine(hist, s, l) && l !in s.shown {
      assert forall i :: 0 <= i < |hist| ==> Preliminary(hist[i]);
    }
    NoElements(s.shown);
    forall m ensures m !in s.seen {
      assert m in s.seen <==> ShownIn(s, m);
    }
  }

  lemma DisplayedStays(w: World, w': World, n: nat)
    requires n < |w.p.hub.vault.log| <= |w'.p.hub.vault.log| && w'.p.hub.vault.log[n] == w.p.hub.vault.log[n]
    requires Displayed(w, n)
    requires |w.sessions| <= |w'.sessions|
    requires forall c: Conn :: c < |w.sessions| ==>
      && w.sessions[c].shown <= w'.sessions[c].shown
      && (w'.sessions[c].inbox == w.sessions[c].inbox || w.sessions[c].shown == [])
    ensures Displayed(w', n)
  {
    var a := w.p.hub.vault.log[n];
    var c: Conn, i :| c < |w.sessions| && 0 <= i < |w.sessions[c].shown|
      && w.sessions[c].inbox == a.qid && w.sessions[c].shown[i].mid == a.mid
      && a.payload == Chat(w.sessions[c].shown[i].text);
    assert w'.sessions[c].shown[i] == w.sessions[c].shown[i];
  }

  /** A move of the client alone: session c becomes s'. */
  lemma LocalKeeps(w: World, c: Conn, s': Session, used': set<string>)
    requires WorldInv(w) && c < |w.sessions| && w.used <= used'
    requires var w' := With(w, c, s').(used := used'); ConnInv(w', c) && DistinctSends(w')
    requires w.sessions[c].shown <= s'.shown && s'.replyAt == w.sessions[c].replyAt
    requires s'.inbox == w.sessions[c].inbox || s'.replyAt.None?
    ensures WorldInv(With(w, c, s').(used := used'))
  {
    var w' := With(w, c, s').(used := used');
    forall d: Conn | d < |w'.sessions| ensures ConnInv(w', d) {
      if d != c {
        forall i | InFlight(w, d, i) ensures w.sessions[d].up[i].mid !in w.p.hub.vault.number {
          InFlightIsFresh(w, d, i);
        }
        BystanderKeeps(w, w', d);
      }
    }
    forall q | q in w.p.hub.queues && w.p.hub.queues[q].sub.Some?
      ensures Subscribed(w', w.p.hub.queues[q].sub.value, q)
    {
      assert Subscribed(w, w.p.hub.queues[q].sub.value, q);
    }
    if s'.replyAt.None? { NothingShownBeforeReply(w, c); }
    forall n | n in w.p.hub.vault.acked ensures n < |w.p.hub.vault.log| && Displayed(w', n) {
      DisplayedStays(w, w', n);
    }
  }

  // ---- client moves ----

  lemma QuietDisplays(v: Vault, hist: seq<Frame>, s: Session, s': Session)
    requires Displays(v, hist, s)
    requires s'.recvd == s.recvd && s'.seen == s.seen && s'.shown == s.shown
    requires s'.inbox == s.inbox || s.shown == []
    ensures Displays(v, hist, s')
  {
    forall i | 0 <= i < |s'.shown| ensures ReceivedLine(hist, s', s'.shown[i]) {
      assert ReceivedLine(hist, s, s.shown[i]);
    }
    forall m ensures m in s'.seen <==> ShownIn(s', m) {
      assert m in s.seen <==> ShownIn(s, m);
    }
  }

  lemma QuietSends(w: World, c: Conn, s': Session)
    requires |w.sessions| == |w.p.hub.chans| && c < |w.sessions| && DistinctSends(w)
    requires forall i :: 0 <= i < |s'.up| && s'.up[i].kind == SEND ==>
      i < |w.sessions[c].up| && s'.up[i] == w.sessions[c].up[i]
    ensures DistinctSends(With(w, c, s').(used := w.used))
  {
    var w' := With(w, c, s').(used := w.used);
    forall d: Conn, i | InFlight(w', d, i) ensures InFlight(w, d, i) && w'.sessions[d].up[i] == w.sessions[d].up[i] {
    }
  }

  lemma StartUpMoveKeeps(w: World, m: Move)
    requires WorldInv(w) && Allowed(w, m) && (m.AskNew? || m.PickOutbox? || m.AskSub?)
    ensures WorldInv(Moved(w, m))
  {
    var c := m.c;
    var s, hist, v := w.sessions[c], w.p.hub.chans[c].hist, w.p.hub.vault;
    var w' := Moved(w, m);
    var s' := w'.sessions[c];
    assert w' == With(w, c, s').(used := w.used);
    StartUpMoveKeepsConn(w, m);
    QuietSends(w, c, s');
    LocalKeeps(w, c, s', w.used);
  }

  lemma StartUpMoveKeepsConn(w: World, m: Move)
    requires WorldInv(w) && Allowed(w, m) && (m.AskNew? || m.PickOutbox? || m.AskSub?)
    ensures ConnInv(Moved(w, m), m.c) && w.sessions[m.c].replyAt.None?
  {
    var s, hist, v := w.sessions[m.c], w.p.hub.chans[m.c].hist, w.p.hub.vault;
    var s' := Moved(w, m).sessions[m.c];
    assert ConnInv(w, m.c);
    NothingShownBeforeReply(w, m.c);
    assert forall i :: 0 <= i < |hist| ==> Preliminary(hist[i]);
    QuietDisplays(v, hist, s, s');
    if m.c in w.p.readers { StartUpUpstream(w, m); }
  }

  lemma StartUpUpstream(w: World, m: Move)
    requires Allowed(w, m) && (m.AskNew? || m.PickOutbox? || m.AskSub?)
    requires Started(w.p.hub.chans[m.c].hist, w.sessions[m.c])
    requires Upstream(w.p.hub.vault, w.used, w.p.hub.chans[m.c].hist, w.sessions[m.c])
    ensures Upstream(w.p.hub.vault, w.used, w.p.hub.chans[m.c].hist, Moved(w, m).sessions[m.c])
  {
    match m
    case AskNew(c) =>
      assert Moved(w, m).sessions[c].up == [NewCommand()];
    case PickOutbox(c, qid) =>
      ClientCheckIsStricter(qid);
    case AskSub(c, qid) =>
      var up := Moved(w, m).sessions[c].up;
      assert up == [SubCommand(qid)] && up[0] != NewCommand();
  }

  lemma OtherMoveKeeps(w: World, m: Move)
    requires WorldInv(w) && Allowed(w, m) && (m.PushAck? || m.WireUp? || m.Quit?)
    ensures WorldInv(Moved(w, m))
  {
    var c := m.c;
    var w' := Moved(w, m);
    var s' := w'.sessions[c];
    assert w' == With(w, c, s').(used := w.used) && ConnInv(w, c);
    OtherMoveKeepsConn(w, m);
    if c in w.p.readers {
      QuietSends(w, c, s');
    } else {
      EndedSends(w, w', c);
    }
    LocalKeeps(w, c, s', w.used);
  }

  lemma EndedSends(w: World, w': World, c: Conn)
    requires DistinctSends(w) && c !in w.p.readers && w'.p == w.p && |w'.sessions| == |w.sessions|
    requires forall d: Conn :: d < |w.sessions| && d != c ==> w'.sessions[d] == w.sessions[d]
    ensures DistinctSends(w')
  {
    forall d: Conn, i | InFlight(w', d, i) ensures InFlight(w, d, i) && w'.sessions[d].up[i] == w.sessions[d].up[i] {}
  }

  lemma OtherMoveKeepsConn(w: World, m: Move)
    requires Allowed(w, m) && (m.PushAck? || m.WireUp? || m.Quit?) && ConnInv(w, m.c)
    ensures ConnInv(Moved(w, m), m.c)
    ensures m.c in w.p.readers ==>
      var up, up' := w.sessions[m.c].up, Moved(w, m).sessions[m.c].up;
      forall i :: 0 <= i < |up'| && up'[i].kind == SEND ==> i < |up| && up'[i] == up[i]
  {
    QuietDisplays(w.p.hub.vault, w.p.hub.chans[m.c].hist, w.sessions[m.c], Moved(w, m).sessions[m.c]);
    if m.c in w.p.readers { OtherUpstream(w, m); }
  }

  lemma OtherUpstream(w: World, m: Move)
    requires Allowed(w, m) && (m.PushAck? || m.WireUp? || m.Quit?)
    requires Started(w.p.hub.chans[m.c].hist, w.sessions[m.c])
    requires Upstream(w.p.hub.vault, w.used, w.p.hub.chans[m.c].hist, w.sessions[m.c])
    ensures Upstream(w.p.hub.vault, w.used, w.p.hub.chans[m.c].hist, Moved(w, m).sessions[m.c])
    ensures var up, up' := w.sessions[m.c].up, Moved(w, m).sessions[m.c].up;
      forall i :: 0 <= i < |up'| && up'[i].kind == SEND ==> i < |up| && up'[i] == up[i]
  {
    var s, s' := w.sessions[m.c], Moved(w, m).sessions[m.c];
    if s.replyAt.Some? {
      forall i | 0 <= i < |s'.up| ensures Talk(w.p.hub.vault, w.used, s', s'.up[i]) {
        if i < |s.up| { assert Talk(w.p.hub.vault, w.used, s, s.up[i]); }
      }
    }
  }

  lemma TypeKeeps(w: World, c: Conn, mid: string, text: string)
    requires WorldInv(w) && Allowed(w, Type(c, mid, text))
    ensures WorldInv(Moved(w, Type(c, mid, text)))
  {
    var s, hist, v := w.sessions[c], w.p.hub.chans[c].hist, w.p.hub.vault;
    var w' := Moved(w, Type(c, mid, text));
    var s' := w'.sessions[c];
    assert ConnInv(w, c);
    QuietDisplays(v, hist, s, s');
    if c in w.p.readers {
      assert Upstream(v, w.used, hist, s);
      forall i | 0 <= i < |s'.up| ensures Talk(v, w'.used, s', s'.up[i]) {
        if i < |s.up| { assert Talk(v, w.used, s, s.up[i]); }
      }
    }
    TypeKeepsSends(w, c, mid, text);
    LocalKeeps(w, c, s', w'.used);
  }

  lemma TypeKeepsSends(w: World, c: Conn, mid: string, text: string)
    requires WorldInv(w) && Allowed(w, Type(c, mid, text))
    ensures DistinctSends(Moved(w, Type(c, mid, text)))
  {
    var s, w' := w.sessions[c], Moved(w, Type(c, mid, text));
    forall d: Conn, i | InFlight(w', d, i)
      ensures (InFlight(w, d, i) && w'.sessions[d].up[i] == w.sessions[d].up[i] && w.sessions[d].up[i].mid != mid)
           || (d == c && i == |s.up| && w'.sessions[d].up[i].mid == mid)
    {
      if d != c || i < |s.up| {
        assert InFlight(w, d, i);
        InFlightIsFresh(w, d, i);
      }
    }
  }

  /** A DELIVER about to be read is genuine, and later than everything displayed. */
  lemma NextDeliverIsNew(w: World, c: Conn)
    requires c < |w.sessions| == |w.p.hub.chans| && ConnInv(w, c) && w.sessions[c].recvd < |w.p.hub.chans[c].hist|
    requires w.p.hub.chans[c].hist[w.sessions[c].recvd].Deliver?
    ensures var s, v, f := w.sessions[c], w.p.hub.vault, w.p.hub.chans[c].hist[w.sessions[c].recvd];
      && Genuine(v, f, s.inbox) && f.mid !in s.seen && !ShownIn(s, f.mid)
      && forall i :: 0 <= i < |s.shown| ==> s.shown[i].mid in v.number && v.number[s.shown[i].mid] < v.number[f.mid]
  {
    var s, hist, v := w.sessions[c], w.p.hub.chans[c].hist, w.p.hub.vault;
    var f := hist[s.recvd];
    forall i | 0 <= i < |s.shown| ensures v.number[s.shown[i].mid] < v.number[f.mid] {
      assert ReceivedLine(hist, s, s.shown[i]);
    }
    assert f.mid in s.seen <==> ShownIn(s, f.mid);
  }

  lemma QuietReceive(v: Vault, hist: seq<Frame>, s: Session, s': Session)
    requires Displays(v, hist, s) && s.recvd < |hist| && !hist[s.recvd].Deliver?
    requires s'.recvd == s.recvd + 1 && s'.seen == s.seen && s'.shown == s.shown && s'.inbox == s.inbox
    ensures Displays(v, hist, s')
  {
    forall i | 0 <= i < |s.shown| ensures ReceivedLine(hist, s', s.shown[i]) {
      assert ReceivedLine(hist, s, s.shown[i]);
    }
    forall m ensures m in s'.seen <==> ShownIn(s', m) {
      assert m in s.seen <==> ShownIn(s, m);
    }
  }

  lemma NewLine(v: Vault, hist: seq<Frame>, s: Session, s': Session, l: Line)
    requires Displays(v, hist, s) && s.recvd < |hist| && hist[s.recvd] == Deliver(s.inbox, l.mid, Chat(l.text))
    requires s'.recvd == s.recvd + 1 && s'.seen == s.seen + {l.mid} && s'.shown == s.shown + [l] && s'.inbox == s.inbox
    requires l.mid in v.number
    requires forall i :: 0 <= i < |s.shown| ==> v.number[s.shown[i].mid] < v.number[l.mid]
    ensures Displays(v, hist, s')
  {
    forall i | 0 <= i < |s'.shown| ensures s'.shown[i].mid in v.number && ReceivedLine(hist, s', s'.shown[i]) {
      if i < |s.shown| { assert ReceivedLine(hist, s, s.shown[i]); }
    }
    forall m ensures m in s'.seen <==> ShownIn(s', m) {
      assert m in s.seen <==> ShownIn(s, m);
      assert s'.shown[|s.shown|] == l;
      if i :| 0 <= i < |s.shown| && s.shown[i].mid == m { assert s'.shown[i].mid == m; }
    }
  }

  lemma ReceiveDisplays(w: World, c: Conn)
    requires Allowed(w, Receive(c)) && ConnInv(w, c)
    ensures Displays(w.p.hub.vault, w.p.hub.chans[c].hist, Moved(w, Receive(c)).sessions[c])
  {
    var s, hist, v := w.sessions[c], w.p.hub.chans[c].hist, w.p.hub.vault;
    var f := hist[s.recvd];
    var s' := Moved(w, Receive(c)).sessions[c];
    if f.Deliver? {
      NextDeliverIsNew(w, c);
      assert s.phase == Chatting;
      NewLine(v, hist, s, s', Line(f.mid, f.payload.text));
    } else {
      QuietReceive(v, hist, s, s');
    }
  }

  lemma ReceiveStarts(hist: seq<Frame>, s: Session)
    requires Started(hist, s) && s.recvd < |hist| && (StartingUp(s) || s.phase == Chatting)
    ensures Started(hist, Received(s, hist[s.recvd]))
    ensures StartingUp(s) ==> !hist[s.recvd].Deliver?
  {
    if s.replyAt.None? { assert Preliminary(hist[s.recvd]); }
    else if s.recvd < s.replyAt.value { assert Preliminary(hist[s.recvd]); }
  }

  lemma ReceiveUpstream(v: Vault, used: set<string>, hist: seq<Frame>, s: Session)
    requires Upstream(v, used, hist, s) && Started(hist, s) && LogWellFormed(v)
    requires s.recvd < |hist| && (StartingUp(s) || (s.phase == Chatting && s.pending.None?))
    requires s.replyAt.Some? ==> ValidQueueID(s.inbox)
    requires hist[s.recvd].NewOk? ==> ValidQueueID(hist[s.recvd].qid)
    requires hist[s.recvd].Deliver? ==> Genuine(v, hist[s.recvd], s.inbox)
    ensures Upstream(v, used, hist, Received(s, hist[s.recvd]))
  {
    var f := hist[s.recvd];
    var s' := Received(s, f);
    if s.replyAt.Some? {
      forall i | 0 <= i < |s'.up| ensures Talk(v, used, s', s'.up[i]) { assert Talk(v, used, s, s.up[i]); }
    }
    if f.Deliver? && s'.pending != s.pending {
      var n := v.number[f.mid];
      assert ClientValidQID(v.log[n].mid);
      assert Talk(v, used, s', s'.pending.value);
    }
    if s.pending.Some? { assert Talk(v, used, s, s.pending.value); }
  }

  lemma ReceiveKeeps(w: World, c: Conn)
    requires WorldInv(w) && Allowed(w, Receive(c))
    ensures WorldInv(Moved(w, Receive(c)))
  {
    var s, hist, v := w.sessions[c], w.p.hub.chans[c].hist, w.p.hub.vault;
    var s' := Received(s, hist[s.recvd]);
    assert Moved(w, Receive(c)) == With(w, c, s').(used := w.used);
    ReceiveKeepsConn(w, c);
    QuietSends(w, c, s');
    LocalKeeps(w, c, s', w.used);
  }

  lemma ReceiveKeepsConn(w: World, c: Conn)
    requires Allowed(w, Receive(c)) && ConnInv(w, c) && LogWellFormed(w.p.hub.vault)
    ensures var s, s' := w.sessions[c], Received(w.sessions[c], w.p.hub.chans[c].hist[w.sessions[c].recvd]);
      s'.inbox == s.inbox && s'.replyAt == s.replyAt && s'.up == s.up && s.shown <= s'.shown
    ensures ConnInv(Moved(w, Receive(c)), c)
  {
    var s, hist, v := w.sessions[c], w.p.hub.chans[c].hist, w.p.hub.vault;
    ReceiveDisplays(w, c);
    ReceiveStarts(hist, s);
    if c in w.p.readers { ReceiveUpstream(v, w.used, hist, s); }
  }

  // ---- server steps without a command ----

  lemma SendsStay(w: World, w': World)
    requires DistinctSends(w) && w'.p.readers <= w.p.readers && w'.sessions == w.sessions
    ensures DistinctSends(w')
  {
    forall d: Conn, i | InFlight(w', d, i) ensures InFlight(w, d, i) {}
  }

  /** Channels keep their history, ledger and table only lose, sessions rest. */
  ghost predicate Rests(p: Process, p': Process) {
    && |p'.hub.chans| == |p.hub.chans|
    && (forall d: Conn :: d < |p.hub.chans| ==> p'.hub.chans[d].hist == p.hub.chans[d].hist)
    && p'.hub.vault.log == p.hub.vault.log && p'.hub.vault.number == p.hub.vault.number
    && p'.hub.vault.acked == p.hub.vault.acked
    && p'.readers <= p.readers
    && (forall d :: d in p'.readers && d in p.hub.clients ==> d in p'.hub.clients)
    && (forall q :: q in p'.hub.queues && p'.hub.queues[q].sub.Some? ==>
          && q in p.hub.queues && p.hub.queues[q].sub == p'.hub.queues[q].sub
          && (p'.hub.queues[q].sub.value in p.hub.clients ==> p'.hub.queues[q].sub.value in p'.hub.clients))
  }

  lemma StepRests(p: Process, s: Step)
    requires Enabled(p, s) && ServerAlone(s)
    ensures Rests(p, Apply(p, s))
  {
  }

  lemma QuietServerKeeps(w: World, w': World)
    requires WorldInv(w) && ProcessInv(w'.p) && Rests(w.p, w'.p)
    requires w'.sessions == w.sessions && w'.used == w.used
    ensures WorldInv(w')
  {
    forall d: Conn | d < |w'.sessions| ensures ConnInv(w', d) {
      forall i | InFlight(w, d, i) ensures w.sessions[d].up[i].mid !in w.p.hub.vault.number {
        InFlightIsFresh(w, d, i);
      }
      BystanderKeeps(w, w', d);
    }
    forall q | q in w'.p.hub.queues && w'.p.hub.queues[q].sub.Some?
      ensures Subscribed(w', w'.p.hub.queues[q].sub.value, q)
    {
      assert Subscribed(w, w.p.hub.queues[q].sub.value, q);
    }
    SendsStay(w, w');
    forall n | n in w'.p.hub.vault.acked ensures n < |w'.p.hub.vault.log| && Displayed(w', n) {
      DisplayedStays(w, w', n);
    }
  }

  lemma ServerKeeps(w: World, s: Step)
    requires WorldInv(w) && Allowed(w, Server(s))
    ensures WorldInv(Moved(w, Server(s)))
  {
    var w' := Moved(w, Server(s));
    StepKeeps(w.p, s);
    StepRests(w.p, s);
    QuietServerKeeps(w, w');
  }

  lemma DialKeeps(w: World)
    requires WorldInv(w) && Allowed(w, Dial)
    ensures WorldInv(Moved(w, Dial))
  {
    var w' := Moved(w, Dial);
    StepKeeps(w.p, Connect);
    var n := |w.sessions|;
    forall d: Conn | d < |w'.sessions| ensures ConnInv(w', d) {
      if d < n {
        forall i | InFlight(w, d, i) ensures w.sessions[d].up[i].mid !in w.p.hub.vault.number {
          InFlightIsFresh(w, d, i);
        }
        BystanderKeeps(w, w', d);
      }
    }
    forall q | q in w'.p.hub.queues && w'.p.hub.queues[q].sub.Some?
      ensures Subscribed(w', w'.p.hub.queues[q].sub.value, q)
    {
      assert Subscribed(w, w.p.hub.queues[q].sub.value, q);
    }
    assert DistinctSends(w') by {
      forall d: Conn, i | InFlight(w', d, i) ensures InFlight(w, d, i) && w'.sessions[d] == w.sessions[d] {}
    }
    forall k | k in w'.p.hub.vault.acked ensures k < |w'.p.hub.vault.log| && Displayed(w', k) {
      DisplayedStays(w, w', k);
    }
  }

  // ---- commands ----

  lemma AppendKeepsDisplays(v: Vault, hist: seq<Frame>, hist': seq<Frame>, s: Session)
    requires Displays(v, hist, s) && hist <= hist'
    ensures Displays(v, hist', s)
  {
    forall i | 0 <= i < |s.shown| ensures ReceivedLine(hist', s, s.shown[i]) {
      assert ReceivedLine(hist, s, s.shown[i]);
    }
  }

  lemma AppendKeepsStarted(hist: seq<Frame>, hist': seq<Frame>, s: Session)
    requires Started(hist, s) && hist <= hist' && s.replyAt.Some?
    requires !hist[s.replyAt.value].SubOk? ==> forall i :: |hist| <= i < |hist'| ==> !hist'[i].Deliver?
    ensures Started(hist', s)
  {
  }

  /** The first command has been taken off the wire of c; nothing else is new upstream. */
  lemma TakenSends(w: World, w': World, c: Conn)
    requires DistinctSends(w) && c < |w.sessions| == |w'.sessions| && w.sessions[c].up != []
    requires w'.p.readers <= w.p.readers
    requires w'.sessions[c].up == w.sessions[c].up[1..]
    requires forall d: Conn :: d < |w.sessions| && d != c ==> w'.sessions[d] == w.sessions[d]
    ensures DistinctSends(w')
  {
    forall d: Conn, i | InFlight(w', d, i)
      ensures var k := if d == c then i + 1 else i; InFlight(w, d, k) && w'.sessions[d].up[i] == w.sessions[d].up[k] {}
  }

  ghost predicate SameHist(h: Hub, g: Hub) {
    |g.chans| == |h.chans| && forall d: Conn :: d < |h.chans| ==> g.chans[d].hist == h.chans[d].hist
  }

  /** A crash in g while c's command is handled, before anything was sent. */
  lemma CrashKeeps(w: World, w': World, c: Conn, g: Hub)
    requires WorldInv(w) && ProcessInv(w'.p) && c < |w.sessions| == |w'.sessions|
    requires w.sessions[c].up != [] && 0 < w.sessions[c].wired && w'.sessions == w.sessions[c := Taken(w.sessions[c])]
    requires w'.used == w.used && w'.p == Rebooted(w.p, g) && SameHist(w.p.hub, g)
    requires Grows(w.p.hub.vault, w'.p.hub.vault) && LogWellFormed(w'.p.hub.vault)
    requires forall m :: m in w'.p.hub.vault.number ==> m in w.used
    requires forall n :: n in w'.p.hub.vault.acked ==> n < |w.p.hub.vault.log| && Displayed(w, n)
    ensures WorldInv(w')
  {
    forall d: Conn | d < |w'.sessions| ensures ConnInv(w', d) {
      assert ConnInv(w, d);
      var s, s', hist := w.sessions[d], w'.sessions[d], w.p.hub.chans[d].hist;
      OrderedGrows(w.p.hub.vault, w'.p.hub.vault, hist, s.inbox);
      DisplaysGrows(w.p.hub.vault, w'.p.hub.vault, hist, s);
      QuietDisplays(w'.p.hub.vault, hist, s, s');
    }
    TakenSends(w, w', c);
    forall n | n in w'.p.hub.vault.acked ensures n < |w'.p.hub.vault.log| && Displayed(w', n) {
      DisplayedStays(w, w', n);
    }
  }

  // ---- runs ----

  lemma {:induction false} MovesAppend(w: World, a: seq<Move>, w1: World, b: seq<Move>, w2: World)
    requires Moves(w, a, w1) && Moves(w1, b, w2)
    ensures Moves(w, a + b, w2)
    decreases a
  {
    if a == [] {
      assert a + b == b;
    } else {
      MovesAppend(Moved(w, a[0]), a[1..], w1, b, w2);
      assert (a + b)[0] == a[0] && (a + b)[1..] == a[1..] + b;
    }
  }

  lemma OneMove(w: World, m: Move)
    requires Allowed(w, m)
    ensures Moves(w, [m], Moved(w, m))
  {
    assert Moves(Moved(w, m), [m][1..], Moved(w, m));
  }
}
