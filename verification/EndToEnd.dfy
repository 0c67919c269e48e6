/** What users of shipped clients may rely on, over every run of the whole system. */
module EndToEnd {
  import opened Ids
  import opened Frames
  import opened Channel
  import opened Relay
  import opened Invariants
  import opened Chat
  import opened World
  import opened WorldProofs
  import opened ServeProofs
  import Guarantees
  import Ledger

  lemma GenesisIsSound()
    ensures WorldInv(GENESIS)
  {
  }

  /** Every move of the world, in any order, keeps WorldInv. */
  lemma MoveKeeps(w: World, m: Move)
    requires WorldInv(w) && Allowed(w, m)
    ensures WorldInv(Moved(w, m))
  {
    match m
    case Dial => DialKeeps(w);
    case AskNew(_) => StartUpMoveKeeps(w, m);
    case PickOutbox(_, _) => StartUpMoveKeeps(w, m);
    case AskSub(_, _) => StartUpMoveKeeps(w, m);
    case Receive(c) => ReceiveKeeps(w, c);
    case PushAck(_) => OtherMoveKeeps(w, m);
    case Type(c, mid, text) => TypeKeeps(w, c, mid, text);
    case WireUp(_) => OtherMoveKeeps(w, m);
    case Quit(_) => OtherMoveKeeps(w, m);
    case Serve(c, o) => ServeKeeps(w, c, o);
    case DieServing(c, o, stage) => DieServingKeeps(w, c, o, stage);
    case Server(s) => ServerKeeps(w, s);
  }

  lemma {:induction false} MovesKeep(w: World, ms: seq<Move>, w': World)
    requires WorldInv(w) && Moves(w, ms, w')
    ensures WorldInv(w')
    decreases ms
  {
    if ms != [] {
      MoveKeeps(w, ms[0]);
      MovesKeep(Moved(w, ms[0]), ms[1..], w');
    }
  }

  ghost predicate Reachable(w: World) {
    exists ms :: Moves(GENESIS, ms, w)
  }

  lemma ReachableIsSound(w: World)
    requires Reachable(w)
    ensures WorldInv(w)
  {
    var ms :| Moves(GENESIS, ms, w);
    GenesisIsSound();
    MovesKeep(GENESIS, ms, w);
  }

  /** Line l is acceptance n of queue qid, word for word. */
  ghost predicate IsLineOf(v: Vault, l: Line, qid: string, n: nat) {
    && n < |v.log| && v.log[n].mid == l.mid && v.log[n].qid == qid && v.log[n].payload == Chat(l.text)
  }

  /** A session displays a strictly increasing subsequence of its queue's acceptance order,
      and so no message twice, through drops, kicks, disconnects and restarts. */
  lemma SessionOrder(w: World, c: Conn)
    requires Reachable(w) && c < |w.sessions|
    ensures var s, v := w.sessions[c], w.p.hub.vault;
      && (forall i :: 0 <= i < |s.shown| ==>
            s.shown[i].mid in v.number && IsLineOf(v, s.shown[i], s.inbox, v.number[s.shown[i].mid]))
      && (forall i, j :: 0 <= i < j < |s.shown| ==>
            v.number[s.shown[i].mid] < v.number[s.shown[j].mid] && s.shown[i].mid != s.shown[j].mid)
  {
    ReachableIsSound(w);
    assert ConnInv(w, c);
    var s, hist, v := w.sessions[c], w.p.hub.chans[c].hist, w.p.hub.vault;
    forall i | 0 <= i < |s.shown| ensures IsLineOf(v, s.shown[i], s.inbox, v.number[s.shown[i].mid]) {
      assert ReceivedLine(hist, s, s.shown[i]);
      var j :| 0 <= j < s.recvd && j < |hist| && hist[j] == Deliver(s.inbox, s.shown[i].mid, Chat(s.shown[i].text));
      assert Genuine(v, hist[j], s.inbox);
    }
  }

  /** A channel carries DELIVERs in acceptance order: replayed rows before later ones. */
  lemma ChannelOrder(w: World, c: Conn, i: nat, j: nat)
    requires Reachable(w) && c < |w.p.hub.chans|
    requires var hist := w.p.hub.chans[c].hist; i < j < |hist| && hist[i].Deliver? && hist[j].Deliver?
    ensures var v, a, b := w.p.hub.vault, w.p.hub.chans[c].hist[i].mid, w.p.hub.chans[c].hist[j].mid;
      a in v.number && b in v.number && v.number[a] < v.number[b]
  {
    ReachableIsSound(w);
    assert ConnInv(w, c);
    assert Genuine(w.p.hub.vault, w.p.hub.chans[c].hist[i], w.sessions[c].inbox);
    assert Genuine(w.p.hub.vault, w.p.hub.chans[c].hist[j], w.sessions[c].inbox);
  }

  /** Every accepted message is still stored, or expired, or was acknowledged, and then some
      session subscribed to its queue has displayed it. */
  lemma NoSilentLoss(w: World, n: nat)
    requires Reachable(w) && n < |w.p.hub.vault.log|
    ensures n in Ledger.Stored(w.p.hub.vault) || n in w.p.hub.vault.expired
         || (n in w.p.hub.vault.acked &&
             exists c: Conn, i :: c < |w.sessions| && 0 <= i < |w.sessions[c].shown|
               && IsLineOf(w.p.hub.vault, w.sessions[c].shown[i], w.sessions[c].inbox, n))
  {
    ReachableIsSound(w);
    if n in w.p.hub.vault.acked {
      assert Displayed(w, n);
      var a := w.p.hub.vault.log[n];
      var c: Conn, i :| c < |w.sessions| && 0 <= i < |w.sessions[c].shown|
        && w.sessions[c].inbox == a.qid && w.sessions[c].shown[i].mid == a.mid
        && a.payload == Chat(w.sessions[c].shown[i].text);
      assert IsLineOf(w.p.hub.vault, w.sessions[c].shown[i], w.sessions[c].inbox, n);
    }
  }

  /** The start-up swallows nothing: the frame a waiting request reads is never a DELIVER;
      the reply to SUB always finds room, at most one frame before it; and a session that
      has read a DELIVER has displayed it. */
  lemma StartUpSwallowsNothing(w: World, c: Conn)
    requires Reachable(w) && c < |w.p.hub.chans|
    ensures |w.sessions| == |w.p.hub.chans|
    ensures var s, hist := w.sessions[c], w.p.hub.chans[c].hist;
      && s.recvd <= |hist|
      && (StartingUp(s) && s.recvd < |hist| ==> !hist[s.recvd].Deliver?)
      && (s.replyAt.Some? ==>
            && s.replyAt.value <= 1 && s.replyAt.value < |hist|
            && (hist[s.replyAt.value] == SubOk(s.inbox) || hist[s.replyAt.value].Error?)
            && (forall i :: 0 <= i < s.replyAt.value ==> !hist[i].Deliver?))
      && (forall i :: 0 <= i < s.recvd && hist[i].Deliver? ==> ShownIn(s, hist[i].mid))
  {
    ReachableIsSound(w);
    assert ConnInv(w, c);
    var s, hist := w.sessions[c], w.p.hub.chans[c].hist;
    if StartingUp(s) && s.recvd < |hist| {
      ReceiveStarts(hist, s);
    }
    forall i | 0 <= i < s.recvd && hist[i].Deliver? ensures ShownIn(s, hist[i].mid) {
      assert hist[i].mid in s.seen;
    }
  }

  /** All ids in play are 32 hex digits, so the hub's eight-character slices are in bounds:
      in commands about to be served, stored rows, and DELIVERs. */
  lemma IdsAreWellFormed(w: World)
    requires Reachable(w)
    ensures forall c: Conn, o :: Allowed(w, Serve(c, o)) ==>
      var env := w.sessions[c].up[0];
      env.kind == SEND || env.kind == ACK ==> ValidQueueID(env.qid) && ClientValidQID(env.mid)
    ensures forall r :: r in w.p.hub.vault.db.rows ==> ValidQueueID(r.qid) && ClientValidQID(r.mid)
    ensures forall c: Conn, i ::
      c < |w.p.hub.chans| && 0 <= i < |w.p.hub.chans[c].hist| && w.p.hub.chans[c].hist[i].Deliver? ==>
      ValidQueueID(w.p.hub.chans[c].hist[i].qid) && ClientValidQID(w.p.hub.chans[c].hist[i].mid)
  {
    ReachableIsSound(w);
    var v := w.p.hub.vault;
    forall c: Conn, o | Allowed(w, Serve(c, o))
      ensures var env := w.sessions[c].up[0];
        env.kind == SEND || env.kind == ACK ==> ValidQueueID(env.qid) && ClientValidQID(env.mid)
    {
      FirstCommand(w, c);
    }
    forall r | r in v.db.rows ensures ValidQueueID(r.qid) && ClientValidQID(r.mid) {
      assert Ledger.Booked(v, r);
    }
    forall c: Conn, i | c < |w.p.hub.chans| && 0 <= i < |w.p.hub.chans[c].hist| && w.p.hub.chans[c].hist[i].Deliver?
      ensures ValidQueueID(w.p.hub.chans[c].hist[i].qid) && ClientValidQID(w.p.hub.chans[c].hist[i].mid)
    {
      assert ConnInv(w, c);
      assert Genuine(v, w.p.hub.chans[c].hist[i], w.sessions[c].inbox);
    }
  }

  /** Every subscriber is a connected session that asked for exactly this queue. */
  lemma SubscribersAreLive(w: World, qid: string)
    requires Reachable(w) && qid in w.p.hub.queues && w.p.hub.queues[qid].sub.Some?
    ensures var c := w.p.hub.queues[qid].sub.value;
      && c in w.p.hub.clients && c < |w.sessions| == |w.p.hub.chans|
      && w.sessions[c].inbox == qid && Open(w.p.hub.chans[c])
  {
    ReachableIsSound(w);
    assert Subscribed(w, w.p.hub.queues[qid].sub.value, qid);
  }

  /** Shipped clients crash the server exactly by a SEND that a kicked connection still had
      on the wire. */
  lemma OnlyKickedSendCrashes(w: World, c: Conn, o: Oracle)
    requires Reachable(w) && Allowed(w, Serve(c, o))
    ensures Read(w.p.hub, c, Wire(w.sessions[c].up[0]), w.p.now, o).Crashed?
       <==> w.sessions[c].up[0].kind == SEND && c in w.p.hub.kicked
  {
    ReachableIsSound(w);
    CrashIsKickedSend(w, c, o);
  }

  /** And it does happen: d takes over the queue of c while a SEND of c is on the wire. */
  lemma TakeOverCrashes(w: World, c: Conn, d: Conn, o1: Oracle, o2: Oracle)
    requires Reachable(w) && Allowed(w, Serve(d, o1)) && Allowed(w, Serve(c, o2)) && c != d
    requires w.sessions[c].up[0].kind == SEND
    requires w.sessions[d].up[0] == SubCommand(w.sessions[c].inbox)
    requires w.sessions[c].inbox in w.p.hub.queues && w.p.hub.queues[w.sessions[c].inbox].sub == Some(c)
    requires w.p.hub.queues[w.sessions[c].inbox].owner != Some(d)
    ensures var w1 := Moved(w, Serve(d, o1));
      && Allowed(w1, Serve(c, o2))
      && Read(w1.p.hub, c, Wire(w1.sessions[c].up[0]), w1.p.now, o2).Crashed?
  {
    ReachableIsSound(w);
    FirstCommand(w, d);
    assert Subscribed(w, c, w.sessions[c].inbox);
    var w1 := Moved(w, Serve(d, o1));
    Guarantees.TakeOverStep(w.p, d, c, w.sessions[c].inbox, o1);
    ServeKeeps(w, d, o1);
    HubInvIsIndexed(w1.p.hub, w1.p.birth);
    CrashIsKickedSend(w1, c, o2);
  }
}
