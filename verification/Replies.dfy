/** What each command does, in the terms of the protocol: the frames everybody is offered,
    in order, and the rows the tables hold afterwards. A message is read here as it came,
    with its version and the name of its type. */
module Replies {
  import opened Ids
  import opened Frames
  import opened Channel
  import opened Relay
  import Tables
  import Ledger

  /** Nothing changes but the channel of c, which is offered fs. */
  ghost predicate Tells(h: Hub, h': Hub, c: Conn, fs: seq<Frame>) {
    && c < |h.chans| == |h'.chans| && Receives(h.chans[c], h'.chans[c], fs)
    && h' == h.(chans := h.chans[c := h'.chans[c]])
  }

  /** Every channel but those of c and d is as it was. */
  ghost predicate OthersHear(h: Hub, h': Hub, c: Conn, d: Conn) {
    |h'.chans| == |h.chans| && forall x :: 0 <= x < |h.chans| && x != c && x != d ==> h'.chans[x] == h.chans[x]
  }

  lemma SendTells(h: Hub, c: Conn, f: Frame)
    requires c < |h.chans| && Open(h.chans[c])
    ensures SendTo(h, c, f).Alive? && Tells(h, SendTo(h, c, f).hub, c, [f])
  {
    ReceivesOne(h.chans[c], f);
  }

  // ---- answered on the spot ----

  /** Whatever it asks for, a message that is no JSON object, has another version or no type
      is answered with 400, and that is all. */
  lemma BadMessageIsRefused(h: Hub, c: Conn, m: Message, now: int, o: Oracle)
    requires Indexed(h) && c < |h.chans| && Open(h.chans[c])
    requires m.NotJson? || m.version != 1 || m.kindName == ""
    ensures var out := Read(h, c, m, now, o); out.Alive? && Tells(h, out.hub, c, [Error(400)])
  {
    SendTells(h, c, Error(400));
  }

  lemma PingIsAnswered(h: Hub, c: Conn, name: string, env: Envelope, now: int, o: Oracle)
    requires Indexed(h) && c < |h.chans| && Open(h.chans[c]) && name != "" && (env.kind == PING || env.kind == OTHER)
    ensures var out := Read(h, c, Decoded(1, name, env), now, o);
      out.Alive? && Tells(h, out.hub, c, [if env.kind == PING then Pong else Error(400)])
  {
    SendTells(h, c, if env.kind == PING then Pong else Error(400));
  }

  // ---- NEW ----

  lemma NewIsAnswered(h: Hub, c: Conn, name: string, env: Envelope, now: int, o: Oracle)
    requires Indexed(h) && c < |h.chans| && Open(h.chans[c]) && name != "" && env.kind == NEW
    ensures var out := Read(h, c, Decoded(1, name, env), now, o);
      && out.Alive?
      && (env.qid != "" ==> Tells(h, out.hub, c, [Error(400)]))
      && (env.qid == "" && (o.idFails || o.writeFails) ==> Tells(h, out.hub, c, [Error(500)]))
      && (env.qid == "" && !o.idFails && !o.writeFails ==> Founds(h, out.hub, c, o.newId, now))
  {
    var founded := h.(vault := Ledger.Touch(Ledger.Create(h.vault, o.newId, now), o.newId, now),
                      queues := h.queues[o.newId := Entry(Some(c), None)]);
    SendTells(h, c, Error(if env.qid != "" then 400 else 500));
    SendTells(founded, c, NewOk(o.newId));
  }

  /** Queue qid exists, last active now; c owns it and is told so. */
  ghost predicate Founds(h: Hub, h': Hub, c: Conn, qid: string, now: int) {
    var queues := h.vault.db.queues;
    var row := Tables.QueueRow(if qid in queues then queues[qid].createdAt else now, now);
    && Tells(h.(vault := h'.vault, queues := h'.queues), h', c, [NewOk(qid)])
    && h'.queues == h.queues[qid := Entry(Some(c), None)]
    && h'.vault == h.vault.(db := Tables.Db(queues[qid := row], h.vault.db.rows))
  }

  // ---- SUB and SEND: the lookup ----

  /** The code SUB and SEND are refused with when there is no such queue to be had. */
  lemma LookupIsRefused(h: Hub, c: Conn, name: string, env: Envelope, now: int, o: Oracle, code: int)
    requires Indexed(h) && c < |h.chans| && Open(h.chans[c]) && name != "" && (env.kind == SUB || env.kind == SEND)
    requires
      || (code == 400 && !ValidQueueID(env.qid))
      || (code == 500 && ValidQueueID(env.qid) && env.qid !in h.queues && o.existsFails)
      || (code == 404 && ValidQueueID(env.qid) && env.qid !in h.queues && !o.existsFails
          && env.qid !in h.vault.db.queues)
      || (code == 400 && env.kind == SUB && env.qid in h.queues && h.queues[env.qid].owner == Some(c))
    ensures var out := Read(h, c, Decoded(1, name, env), now, o); out.Alive? && Tells(h, out.hub, c, [Error(code)])
  {
    SendTells(h, c, Error(code));
  }

  /** There is such a queue: in the hub's table, or in the store. */
  predicate Found(h: Hub, qid: string, o: Oracle) {
    ValidQueueID(qid) && (qid in h.queues || (!o.existsFails && qid in h.vault.db.queues))
  }

  function OwnerOf(h: Hub, qid: string): Option<Conn> {
    if qid in h.queues then h.queues[qid].owner else None
  }

  function SubscriberOf(h: Hub, qid: string): (d: Option<Conn>)
    ensures Indexed(h) ==> Known(h, d)
  {
    if qid in h.queues then h.queues[qid].sub else None
  }

  /** Queue qid, if it is stored, was last active now. */
  function ActiveNow(queues: map<string, Tables.QueueRow>, qid: string, now: int): map<string, Tables.QueueRow> {
    if qid in queues then queues[qid := Tables.QueueRow(queues[qid].createdAt, now)] else queues
  }

  // ---- SUB ----

  function Deliveries(qid: string, rows: seq<Tables.Row>, n: nat): seq<Frame>
    requires n <= |rows|
  {
    seq(n, i requires 0 <= i < n => Deliver(qid, rows[i].mid, rows[i].payload))
  }

  /** All that a granted SUB offers: SUB_OK, then every undelivered row of the queue. */
  function Backlog(h: Hub, qid: string, o: Oracle): seq<Frame> {
    var rows := Tables.Undelivered(h.vault.db, qid);
    [SubOk(qid)] + if o.queryFails then [] else Deliveries(qid, rows, |rows|)
  }

  lemma {:induction false} ReplayOffersEverything(ch: Chan, qid: string, rows: seq<Tables.Row>, o: Oracle, n: nat)
    requires n <= |rows|
    ensures Receives(ch, Replay(Push(ch, SubOk(qid)), qid, rows, o, n), [SubOk(qid)] + Deliveries(qid, rows, n))
  {
    var fs := [SubOk(qid)] + Deliveries(qid, rows, n);
    if n == 0 {
      ReceivesOne(ch, SubOk(qid));
      assert fs == [SubOk(qid)];
    } else {
      var before := [SubOk(qid)] + Deliveries(qid, rows, n - 1);
      ReplayOffersEverything(ch, qid, rows, o, n - 1);
      ReceivesMore(ch, Replay(Push(ch, SubOk(qid)), qid, rows, o, n - 1), before, TakesBefore(o, n - 1),
                   DeliverRow(qid, rows[n - 1]));
      assert before + [DeliverRow(qid, rows[n - 1])] == fs;
    }
  }

  lemma {:induction false} EachRowIsOffered(ch: Chan, qid: string, rows: seq<Tables.Row>, o: Oracle, n: nat)
    requires n <= |rows|
    ensures Replay(ch, qid, rows, o, n).tried == ch.tried + Deliveries(qid, rows, n)
  {
    if n > 0 {
      EachRowIsOffered(ch, qid, rows, o, n - 1);
      assert Deliveries(qid, rows, n) == Deliveries(qid, rows, n - 1) + [DeliverRow(qid, rows[n - 1])];
    }
  }

  /** The write pump takes at least one frame before each of n rows. */
  predicate PumpKeepsUp(o: Oracle, n: nat) {
    n <= |o.takes| && forall i :: 0 <= i < n ==> o.takes[i] >= 1
  }

  lemma {:induction false} ReplayAllFinds(ch: Chan, qid: string, rows: seq<Tables.Row>, o: Oracle, n: nat)
    requires Bounded(ch) && |ch.hist| - ch.popped < 16 && n <= |rows| && PumpKeepsUp(o, n)
    ensures var ch' := Replay(Push(ch, SubOk(qid)), qid, rows, o, n);
      Bounded(ch') && ch'.hist == ch.hist + [SubOk(qid)] + Deliveries(qid, rows, n)
  {
    if n == 0 {
      assert Deliveries(qid, rows, 0) == [];
    } else {
      ReplayAllFinds(ch, qid, rows, o, n - 1);
      assert o.takes[n - 1] >= 1;
      assert Deliveries(qid, rows, n) == Deliveries(qid, rows, n - 1) + [DeliverRow(qid, rows[n - 1])];
    }
  }

  /** The queue has the subscriber c, and was last active now. */
  ghost predicate Subscribes(h: Hub, h': Hub, c: Conn, qid: string, now: int) {
    && h'.queues == h.queues[qid := Entry(OwnerOf(h, qid), Some(c))]
    && h'.vault == h.vault.(db := Tables.Db(ActiveNow(h.vault.db.queues, qid, now), h.vault.db.rows))
  }

  /** A rival loses its connection and nothing else. */
  ghost predicate Evicts(h: Hub, h': Hub, rival: set<Conn>) {
    && h'.clients == h.clients - rival && h'.kicked == h.kicked + rival && h'.left == h.left
    && |h'.chans| == |h.chans|
    && forall d :: d in rival && d < |h.chans| ==> h'.chans[d] == h.chans[d].(closes := h.chans[d].closes + 1)
  }

  /** What is left of a granted SUB: taking the place, answering, touching. */
  lemma GrantedIsAnswered(h: Hub, c: Conn, qid: string, now: int, o: Oracle)
    requires Indexed(h) && c < |h.chans| && Open(h.chans[c]) && Found(h, qid, o) && OwnerOf(h, qid) != Some(c)
    ensures Known(h, Cached(h, qid).sub)
    ensures var h1, rows := TakePlace(h, c, qid), ReplayRows(h.vault, qid, o);
      && h1.chans[c] == h.chans[c] && h1.vault == h.vault
      && HandleSub(h, c, qid, now, o)
         == Alive(Answered(h1, c, qid, o, |rows|).(vault := Ledger.Touch(h.vault, qid, now)))
  {
    var h1 := TakePlace(h, c, qid);
    assert h1.chans[c] == h.chans[c] && h1.vault == h.vault;
    AnswerEnds(h1, c, qid, now, o);
  }

  function Rivals(h: Hub, c: Conn, qid: string): set<Conn> {
    set d | d in h.clients && d != c && SubscriberOf(h, qid) == Some(d)
  }

  lemma TakePlaceEvicts(h: Hub, c: Conn, qid: string)
    requires Indexed(h) && Known(h, Cached(h, qid).sub)
    ensures var h1 := TakePlace(h, c, qid);
      && h1.queues == h.queues[qid := Entry(OwnerOf(h, qid), Some(c))] && Evicts(h, h1, Rivals(h, c, qid))
      && (forall x :: 0 <= x < |h.chans| && x !in Rivals(h, c, qid) ==> h1.chans[x] == h.chans[x])
  {
    var sub := Cached(h, qid).sub;
    assert Rivals(h, c, qid) == if sub.Some? && sub != Some(c) && sub.value in h.clients then {sub.value} else {};
  }

  /** A SUB of a queue that can be had, and is not one's own, is granted: the old subscriber
      is disconnected; then come SUB_OK and the whole backlog. */
  lemma SubIsGranted(h: Hub, c: Conn, name: string, env: Envelope, now: int, o: Oracle)
    requires Indexed(h) && c < |h.chans| && Open(h.chans[c]) && name != "" && env.kind == SUB
    requires Found(h, env.qid, o) && OwnerOf(h, env.qid) != Some(c)
    ensures var out, qid := Read(h, c, Decoded(1, name, env), now, o), env.qid;
      && out.Alive? && Subscribes(h, out.hub, c, qid, now) && Evicts(h, out.hub, Rivals(h, c, qid))
      && (forall x :: 0 <= x < |h.chans| && x != c && x !in Rivals(h, c, qid) ==> out.hub.chans[x] == h.chans[x])
      && Receives(h.chans[c], out.hub.chans[c], Backlog(h, qid, o))
  {
    var qid, rows := env.qid, ReplayRows(h.vault, env.qid, o);
    GrantedIsAnswered(h, c, qid, now, o);
    TakePlaceEvicts(h, c, qid);
    BacklogIsOffered(h, c, qid, o);
    var g := Answered(TakePlace(h, c, qid), c, qid, o, |rows|).(vault := Ledger.Touch(h.vault, qid, now));
    assert Read(h, c, Decoded(1, name, env), now, o) == Alive(g);
  }

  lemma BacklogIsOffered(h: Hub, c: Conn, qid: string, o: Oracle)
    requires c < |h.chans|
    ensures var rows := ReplayRows(h.vault, qid, o);
      Receives(h.chans[c], Replay(Push(h.chans[c], SubOk(qid)), qid, rows, o, |rows|), Backlog(h, qid, o))
  {
    var rows := ReplayRows(h.vault, qid, o);
    ReplayOffersEverything(h.chans[c], qid, rows, o, |rows|);
    assert Backlog(h, qid, o) == [SubOk(qid)] + Deliveries(qid, rows, |rows|);
  }

  /** When a slot is free, and the write pump takes a frame before each row, all of the
      backlog reaches the buffer, however long it is. */
  lemma BacklogArrives(h: Hub, c: Conn, name: string, env: Envelope, now: int, o: Oracle)
    requires Indexed(h) && c < |h.chans| && Open(h.chans[c]) && name != "" && env.kind == SUB
    requires Found(h, env.qid, o) && OwnerOf(h, env.qid) != Some(c)
    requires Bounded(h.chans[c]) && |h.chans[c].hist| - h.chans[c].popped < 16
    requires PumpKeepsUp(o, |Tables.Undelivered(h.vault.db, env.qid)|)
    ensures var out := Read(h, c, Decoded(1, name, env), now, o);
      |out.hub.chans| == |h.chans| && out.hub.chans[c].hist == h.chans[c].hist + Backlog(h, env.qid, o)
  {
    var qid, rows := env.qid, ReplayRows(h.vault, env.qid, o);
    GrantedIsAnswered(h, c, qid, now, o);
    assert PumpKeepsUp(o, |rows|);
    BacklogFinds(h.chans[c], h, qid, o);
    var g := Answered(TakePlace(h, c, qid), c, qid, o, |rows|).(vault := Ledger.Touch(h.vault, qid, now));
    assert Read(h, c, Decoded(1, name, env), now, o) == Alive(g);
  }

  lemma BacklogFinds(ch: Chan, h: Hub, qid: string, o: Oracle)
    requires Bounded(ch) && |ch.hist| - ch.popped < 16 && PumpKeepsUp(o, |ReplayRows(h.vault, qid, o)|)
    ensures var rows := ReplayRows(h.vault, qid, o);
      Replay(Push(ch, SubOk(qid)), qid, rows, o, |rows|).hist == ch.hist + Backlog(h, qid, o)
  {
    var rows := ReplayRows(h.vault, qid, o);
    ReplayAllFinds(ch, qid, rows, o, |rows|);
    assert Backlog(h, qid, o) == [SubOk(qid)] + Deliveries(qid, rows, |rows|);
  }

  // ---- SEND ----

  /** The id a message is stored under: its own; else the one drawn; none when drawing fails. */
  function IdOf(env: Envelope, o: Oracle): string {
    if |env.mid| > 0 then env.mid else if o.idFails then "" else o.newId
  }

  /** Both keys of the messages table allow the row. */
  predicate Storable(h: Hub, env: Envelope, o: Oracle) {
    && !o.writeFails && env.qid in h.vault.db.queues
    && (forall i :: 0 <= i < |h.vault.db.rows| ==> h.vault.db.rows[i].mid != IdOf(env, o))
  }

  /** A SEND to a queue that can be had, but that cannot be stored, is answered with 500; the
      queue has a place in the hub's table now, and the tables are as they were. */
  lemma SendIsNotStored(h: Hub, c: Conn, name: string, env: Envelope, now: int, o: Oracle)
    requires Indexed(h) && c < |h.chans| && Open(h.chans[c]) && name != "" && env.kind == SEND
    requires Found(h, env.qid, o) && !Storable(h, env, o)
    ensures var out := Read(h, c, Decoded(1, name, env), now, o);
      && out.Alive? && Tells(h.(queues := out.hub.queues), out.hub, c, [Error(500)])
      && out.hub.queues == h.queues[env.qid := Entry(OwnerOf(h, env.qid), SubscriberOf(h, env.qid))]
  {
    var h1 := h.(queues := h.queues[env.qid := Cached(h, env.qid)]);
    UnstorableIsRefused(h, env, o);
    SendTells(h1, c, Error(500));
    assert Entry(OwnerOf(h, env.qid), SubscriberOf(h, env.qid)) == Cached(h, env.qid);
  }

  lemma UnstorableIsRefused(h: Hub, env: Envelope, o: Oracle)
    ensures Found(h, env.qid, o) <==> LookupError(h, env.qid, o).None?
    ensures Found(h, env.qid, o) ==> (Storable(h, env, o) <==> Accepts(h, env, o))
    ensures IdOf(env, o) == MessageId(env, o)
  {
    var rows := h.vault.db.rows;
    assert (forall i :: 0 <= i < |rows| ==> rows[i].mid != IdOf(env, o)) <==>
           (forall r :: r in rows ==> r.mid != IdOf(env, o));
  }

  /** The message is the newest row and the newest acceptance, and its queue is active now. */
  ghost predicate Stores(v: Vault, v': Vault, env: Envelope, mid: string, now: int) {
    && v'.log == v.log + [Ledger.Acceptance(mid, env.qid, env.payload, now)]
    && v'.number == v.number[mid := |v.log|] && v'.acked == v.acked && v'.expired == v.expired
    && v'.db.queues == ActiveNow(v.db.queues, env.qid, now)
    && |v'.db.rows| == |v.db.rows| + 1 && v.db.rows <= v'.db.rows
    && var row := v'.db.rows[|v.db.rows|];
       && row == Tables.Row(mid, env.qid, env.payload, now, false, row.rowid)
       && forall r :: r in v.db.rows ==> r.rowid < row.rowid
  }

  /** A SEND that can be stored, to a queue with no subscriber or one that is connected, is
      stored; the subscriber is offered the message, then the sender its ACK. They may be one
      connection. */
  lemma SendIsDelivered(h: Hub, c: Conn, name: string, env: Envelope, now: int, o: Oracle)
    requires Indexed(h) && c < |h.chans| && Open(h.chans[c]) && name != "" && env.kind == SEND
    requires Found(h, env.qid, o) && Storable(h, env, o) && |IdOf(env, o)| >= 8
    requires SubscriberOf(h, env.qid).Some? ==> Open(h.chans[SubscriberOf(h, env.qid).value])
    ensures var out, mid, sub := Read(h, c, Decoded(1, name, env), now, o), IdOf(env, o), SubscriberOf(h, env.qid);
      && out.Alive? && Stores(h.vault, out.hub.vault, env, mid, now)
      && out.hub == h.(vault := out.hub.vault, chans := out.hub.chans,
                       queues := h.queues[env.qid := Entry(OwnerOf(h, env.qid), sub)])
      && OthersHear(h, out.hub, c, if sub.Some? then sub.value else c)
      && Hears(h, out.hub, c, sub, Deliver(env.qid, mid, env.payload), Acked(env.qid, mid))
  {
    var sub, mid := SubscriberOf(h, env.qid), IdOf(env, o);
    UnstorableIsRefused(h, env, o);
    assert Entry(OwnerOf(h, env.qid), sub) == Cached(h, env.qid);
    var h2 := h.(queues := h.queues[env.qid := Cached(h, env.qid)],
      vault := Ledger.Touch(Ledger.Accept(h.vault, mid, env.qid, env.payload, now), env.qid, now));
    assert Read(h, c, Decoded(1, name, env), now, o) == Forward(h2, c, sub, env.qid, mid, env.payload, o);
    ForwardHears(h2, c, sub, env.qid, mid, env.payload, o);
  }

  /** The subscriber is offered f, the sender g. */
  ghost predicate Hears(h: Hub, h': Hub, c: Conn, sub: Option<Conn>, f: Frame, g: Frame)
    requires c < |h.chans| && Known(h, sub)
  {
    && |h'.chans| == |h.chans|
    && (sub.Some? && sub != Some(c) ==> Receives(h.chans[sub.value], h'.chans[sub.value], [f]))
    && Receives(h.chans[c], h'.chans[c], if sub == Some(c) then [f, g] else [g])
  }

  lemma ForwardHears(h: Hub, c: Conn, sub: Option<Conn>, qid: string, mid: string, payload: Payload, o: Oracle)
    requires c < |h.chans| && Open(h.chans[c]) && Known(h, sub) && |mid| >= 8
    requires sub.Some? ==> Open(h.chans[sub.value])
    ensures var out := Forward(h, c, sub, qid, mid, payload, o);
      && out.Alive? && out.hub == h.(chans := out.hub.chans)
      && OthersHear(h, out.hub, c, if sub.Some? then sub.value else c)
      && Hears(h, out.hub, c, sub, Deliver(qid, mid, payload), Acked(qid, mid))
  {
    var f, g := Deliver(qid, mid, payload), Acked(qid, mid);
    if sub.Some? { ReceivesOne(h.chans[sub.value], f); }
    var ch := if sub == Some(c) then Push(h.chans[c], f) else h.chans[c];
    var fs := if sub == Some(c) then [f] else [];
    if sub != Some(c) {
      ReceivesNothing(h.chans[c], 0);
      assert Take(h.chans[c], 0).hist == h.chans[c].hist;
    }
    assert Receives(h.chans[c], ch, fs);
    ReceivesMore(h.chans[c], ch, fs, TakesBefore(o, 0), g);
    assert fs + [g] == if sub == Some(c) then [f, g] else [g];
  }

  /** In particular: an accepted SEND, whether or not the process survives it, leaves its
      DELIVER in the buffer of an open subscriber with a free slot. */
  lemma OnlineDelivery(h: Hub, c: Conn, d: Conn, name: string, env: Envelope, now: int, o: Oracle)
    requires Indexed(h) && c < |h.chans| && name != "" && env.kind == SEND
    requires var h' := Read(h, c, Decoded(1, name, env), now, o).hub; h.vault.log != h'.vault.log
    requires SubscriberOf(h, env.qid) == Some(d) && Open(h.chans[d]) && |h.chans[d].hist| - h.chans[d].popped < 16
    ensures var h' := Read(h, c, Decoded(1, name, env), now, o).hub; var hist := h.chans[d].hist;
      |h'.chans| == |h.chans| && hist + [Deliver(env.qid, IdOf(env, o), env.payload)] <= h'.chans[d].hist
  {
    SendStores(h, c, env, now, o);
    UnstorableIsRefused(h, env, o);
  }

  /** Wherever the process ends after the first statement of such a SEND, the message is
      stored; and nobody has been offered it before. */
  lemma StoredFirst(h: Hub, c: Conn, env: Envelope, now: int, o: Oracle, i: nat)
    requires Indexed(h) && c < |h.chans| && env.kind == SEND && Found(h, env.qid, o) && Storable(h, env, o)
    requires i < |Stages(h, c, env, now, o)|
    ensures var g := Stages(h, c, env, now, o)[i];
      if i == 0 then g == h
      else
        && g.vault.log == h.vault.log + [Ledger.Acceptance(IdOf(env, o), env.qid, env.payload, now)]
        && (i < 3 ==> g.chans == h.chans)
  {
    UnstorableIsRefused(h, env, o);
    SendStores(h, c, env, now, o);
    if 0 < i < |Between(h, c, env, now, o)| { SendBetweenAt(h, c, env, now, o, i); }
  }

  // ---- ACK ----

  /** An ACK removes the rows with its id, which are at most one, whoever sends it. Nobody is
      told anything; ids of fewer than eight characters end the process afterwards. */
  lemma AckDeletes(h: Hub, c: Conn, name: string, env: Envelope, now: int, o: Oracle)
    requires Indexed(h) && c < |h.chans| && name != "" && env.kind == ACK
    ensures var out := Read(h, c, Decoded(1, name, env), now, o); var v, v' := h.vault, out.hub.vault;
      && (out.Crashed? <==> |env.qid| < 8 || |env.mid| < 8)
      && out.hub == h.(vault := v')
      && (o.writeFails ==> v' == v)
      && v'.log == v.log && v'.number == v.number && v'.expired == v.expired && v'.db.queues == v.db.queues
      && (!o.writeFails ==> forall r :: r in v'.db.rows <==> r in v.db.rows && r.mid != env.mid)
  {
  }

  // ---- coming and going ----

  /** e without c in either role. */
  function Without(e: Entry, c: Conn): Entry {
    Entry(if e.owner == Some(c) then None else e.owner, if e.sub == Some(c) then None else e.sub)
  }

  /** Whoever leaves takes its roles along; entries nobody has a role in go with it, every
      other one stays, and the tables do not change. A connection that was kicked takes
      nothing along. */
  lemma LeavingReleases(h: Hub, c: Conn)
    requires c < |h.chans|
    ensures var h' := Unregister(h, c);
      if c in h.clients then
        && h'.vault == h.vault && h'.clients == h.clients - {c} && h'.kicked == h.kicked
        && h'.chans == h.chans[c := h.chans[c].(closes := h.chans[c].closes + 1)]
        && (forall q :: q in h'.queues <==> q in h.queues && Without(h.queues[q], c) != Entry(None, None))
        && (forall q :: q in h'.queues ==> h'.queues[q] == Without(h.queues[q], c))
      else h' == h
  {
  }

  lemma ArrivingRegisters(h: Hub)
    ensures var h', c := Register(h), |h.chans|;
      && h'.clients == h.clients + {c} && h'.chans == h.chans + [Chan([], [], 0, 0)]
      && h'.vault == h.vault && h'.queues == h.queues && h'.kicked == h.kicked
  {
  }
}
