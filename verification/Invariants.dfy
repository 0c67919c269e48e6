/** What every step of the relay process keeps, for arbitrary clients. */
module Invariants {
  import opened Ids
  import opened Frames
  import opened Channel
  import opened Relay
  import opened Steps
  import Tables
  import Ledger

  // ---- channels and references ----

  /** Of this process, exactly the connections in clients have an open channel; every other
      one was closed once, by kick or by unregister. */
  ghost predicate Lifecycle(h: Hub, birth: Conn) {
    && birth <= |h.chans|
    && (forall c :: c in h.clients || c in h.kicked || c in h.left ==> birth <= c < |h.chans|)
    && (forall c: Conn :: birth <= c < |h.chans| ==> c in h.clients || c in h.kicked || c in h.left)
    && h.clients !! h.kicked !! h.left
    && (forall c: Conn :: c < |h.chans| ==> Channel.Valid(h.chans[c]) && h.chans[c].closes <= 1)
    && (forall c: Conn :: birth <= c < |h.chans| ==> (Open(h.chans[c]) <==> c in h.clients))
  }

  /** The connection behind a reference is in clients or was kicked, never unregistered. */
  ghost predicate Lingers(h: Hub, who: Option<Conn>) {
    who.Some? ==> who.value in h.clients || who.value in h.kicked
  }

  ghost predicate Referenced(h: Hub, e: Entry) {
    Lingers(h, e.owner) && Lingers(h, e.sub) && (e.owner.Some? ==> e.owner != e.sub)
  }

  ghost predicate References(h: Hub) {
    forall q :: q in h.queues ==> Referenced(h, h.queues[q])
  }

  /** Some acceptance has this id and queue. */
  ghost predicate Logged(v: Vault, qid: string, mid: string) {
    exists n :: 0 <= n < |v.log| && v.log[n].mid == mid && v.log[n].qid == qid
  }

  /** DELIVER and the acknowledgement of a SEND only name messages stored before. */
  ghost predicate Truthful(v: Vault, f: Frame) {
    match f
    case Deliver(qid, mid, payload) =>
      exists n :: 0 <= n < |v.log| && v.log[n].mid == mid && v.log[n].qid == qid && v.log[n].payload == payload
    case Acked(qid, mid) => Logged(v, qid, mid)
    case _ => true
  }

  ghost predicate AllTruthful(h: Hub) {
    forall c: Conn, i :: c < |h.chans| && 0 <= i < |h.chans[c].tried| ==> Truthful(h.vault, h.chans[c].tried[i])
  }

  ghost predicate HubInv(h: Hub, birth: Conn) {
    Lifecycle(h, birth) && References(h) && AllTruthful(h)
  }

  lemma HubInvIsIndexed(h: Hub, birth: Conn)
    requires HubInv(h, birth)
    ensures Indexed(h)
  {
    forall q | q in h.queues ensures Known(h, h.queues[q].owner) && Known(h, h.queues[q].sub) {
      assert Referenced(h, h.queues[q]);
    }
  }

  lemma RegisterKeeps(h: Hub, birth: Conn)
    requires HubInv(h, birth)
    ensures HubInv(Register(h), birth)
  {
    forall q | q in h.queues ensures Referenced(Register(h), h.queues[q]) { assert Referenced(h, h.queues[q]); }
  }

  lemma SendToKeeps(h: Hub, birth: Conn, c: Conn, f: Frame)
    requires HubInv(h, birth) && c < |h.chans| && Truthful(h.vault, f)
    ensures HubInv(SendTo(h, c, f).hub, birth)
  {
    PushKeepsValid(h.chans[c], f);
    var h' := h.(chans := h.chans[c := Push(h.chans[c], f)]);
    forall q | q in h.queues ensures Referenced(h', h.queues[q]) { assert Referenced(h, h.queues[q]); }
  }

  lemma WrittenKeeps(h: Hub, birth: Conn, c: Conn, k: nat)
    requires HubInv(h, birth) && c < |h.chans|
    ensures HubInv(Written(h, c, k), birth)
  {
    var h' := Written(h, c, k);
    forall q | q in h.queues ensures Referenced(h', h.queues[q]) { assert Referenced(h, h.queues[q]); }
  }

  lemma KickKeeps(h: Hub, birth: Conn, c: Conn)
    requires HubInv(h, birth) && c < |h.chans|
    ensures HubInv(Kick(h, c), birth)
  {
    var h' := Kick(h, c);
    forall q | q in h.queues ensures Referenced(h', h.queues[q]) { assert Referenced(h, h.queues[q]); }
  }

  lemma UnregisterKeeps(h: Hub, birth: Conn, c: Conn)
    requires HubInv(h, birth) && c < |h.chans|
    ensures HubInv(Unregister(h, c), birth)
  {
    var h' := Unregister(h, c);
    forall q | q in h'.queues ensures Referenced(h', h'.queues[q]) { assert Referenced(h, h.queues[q]); }
  }

  lemma EntryKeeps(h: Hub, birth: Conn, qid: string, e: Entry)
    requires HubInv(h, birth) && Referenced(h, e)
    ensures HubInv(h.(queues := h.queues[qid := e]), birth)
  {
    var h' := h.(queues := h.queues[qid := e]);
    forall q | q in h'.queues ensures Referenced(h', h'.queues[q]) {
      if q != qid { assert Referenced(h, h.queues[q]); }
    }
  }

  lemma VaultKeeps(h: Hub, birth: Conn, vault: Vault)
    requires HubInv(h, birth) && h.vault.log <= vault.log
    ensures HubInv(h.(vault := vault), birth)
  {
    var h' := h.(vault := vault);
    forall q | q in h.queues ensures Referenced(h', h.queues[q]) { assert Referenced(h, h.queues[q]); }
    forall c: Conn, i | c < |h.chans| && 0 <= i < |h.chans[c].tried|
      ensures Truthful(h'.vault, h.chans[c].tried[i])
    {
      assert Truthful(h.vault, h.chans[c].tried[i]);
    }
  }

  // ---- commands ----

  lemma NewKeeps(h: Hub, birth: Conn, c: Conn, env: Envelope, now: int, o: Oracle)
    requires HubInv(h, birth) && (c in h.clients || c in h.kicked)
    ensures HubInv(HandleNew(h, c, env, now, o).hub, birth)
  {
    if env.qid == "" && !o.idFails && !o.writeFails {
      var vault := Ledger.Touch(Ledger.Create(h.vault, o.newId, now), o.newId, now);
      VaultKeeps(h, birth, vault);
      var h1 := h.(vault := vault);
      EntryKeeps(h1, birth, o.newId, Entry(Some(c), None));
      SendToKeeps(h1.(queues := h1.queues[o.newId := Entry(Some(c), None)]), birth, c, NewOk(o.newId));
    } else {
      SendToKeeps(h, birth, c, Error(BAD_REQUEST));
      SendToKeeps(h, birth, c, Error(SERVER_ERROR));
    }
  }

  lemma CachedIsReferenced(h: Hub, birth: Conn, qid: string)
    requires HubInv(h, birth)
    ensures Referenced(h, Cached(h, qid)) && Known(h, Cached(h, qid).sub)
  {
    if qid in h.queues { assert Referenced(h, h.queues[qid]); }
  }

  lemma {:induction false} ReplayKeeps(h: Hub, birth: Conn, c: Conn, qid: string, rows: seq<Tables.Row>, o: Oracle,
                                       n: nat)
    requires HubInv(h, birth) && c < |h.chans| && Open(h.chans[c]) && n <= |rows|
    requires forall r :: r in rows ==> Truthful(h.vault, DeliverRow(qid, r))
    ensures HubInv(h.(chans := h.chans[c := Replay(h.chans[c], qid, rows, o, n)]), birth)
    ensures Open(Replay(h.chans[c], qid, rows, o, n))
  {
    if n == 0 {
      assert h.(chans := h.chans[c := h.chans[c]]) == h;
    } else {
      ReplayKeeps(h, birth, c, qid, rows, o, n - 1);
      var ch := Replay(h.chans[c], qid, rows, o, n - 1);
      WriteAndSendKeep(h, birth, c, ch, TakesBefore(o, n - 1), DeliverRow(qid, rows[n - 1]));
    }
  }

  lemma WriteAndSendKeep(h: Hub, birth: Conn, c: Conn, ch: Chan, k: nat, f: Frame)
    requires c < |h.chans| && HubInv(h.(chans := h.chans[c := ch]), birth) && Open(ch) && Truthful(h.vault, f)
    ensures HubInv(h.(chans := h.chans[c := Push(Take(ch, k), f)]), birth) && Open(Push(Take(ch, k), f))
  {
    var h1 := h.(chans := h.chans[c := ch]);
    WrittenKeeps(h1, birth, c, k);
    var h2 := Written(h1, c, k);
    SendToKeeps(h2, birth, c, f);
    assert h2.chans[c := Push(Take(ch, k), f)] == h.chans[c := Push(Take(ch, k), f)];
  }

  /** A row of the queue can be delivered truthfully. */
  lemma RowsAreTruthful(v: Vault, qid: string)
    requires Ledger.Sound(v)
    ensures forall r :: r in Tables.Undelivered(v.db, qid) ==>
      r in v.db.rows && r.qid == qid && Truthful(v, DeliverRow(qid, r))
  {
    var rows := Tables.Undelivered(v.db, qid);
    forall r | r in rows ensures r in v.db.rows && r.qid == qid && Truthful(v, DeliverRow(qid, r)) {
      assert r in multiset(rows);
      assert Ledger.Booked(v, r);
    }
  }

  lemma TakePlaceKeeps(h: Hub, birth: Conn, c: Conn, qid: string)
    requires HubInv(h, birth) && (c in h.clients || c in h.kicked)
    requires Known(h, Cached(h, qid).sub) && Cached(h, qid).owner != Some(c)
    ensures HubInv(TakePlace(h, c, qid), birth)
  {
    var e := Cached(h, qid);
    CachedIsReferenced(h, birth, qid);
    var kicks := e.sub.Some? && e.sub != Some(c);
    if kicks { KickKeeps(h, birth, e.sub.value); }
    var h1 := if kicks then Kick(h, e.sub.value) else h;
    assert Referenced(h1, e.(sub := Some(c)));
    EntryKeeps(h1, birth, qid, e.(sub := Some(c)));
  }

  lemma AnswerKeeps(h: Hub, birth: Conn, c: Conn, qid: string, now: int, o: Oracle)
    requires HubInv(h, birth) && Ledger.Sound(h.vault) && c < |h.chans|
    ensures HubInv(Answer(h, c, qid, now, o).hub, birth)
  {
    SendToKeeps(h, birth, c, SubOk(qid));
    if SendTo(h, c, SubOk(qid)).Alive? {
      var h1, rows := SendTo(h, c, SubOk(qid)).hub, ReplayRows(h.vault, qid, o);
      RowsAreTruthful(h.vault, qid);
      ReplayKeeps(h1, birth, c, qid, rows, o, |rows|);
      VaultKeeps(h1.(chans := h1.chans[c := Replay(h1.chans[c], qid, rows, o, |rows|)]), birth,
                 Ledger.Touch(h1.vault, qid, now));
    }
  }

  lemma AnsweredKeeps(h: Hub, birth: Conn, c: Conn, qid: string, o: Oracle, n: nat)
    requires HubInv(h, birth) && Ledger.Sound(h.vault) && c < |h.chans| && Open(h.chans[c])
    requires n <= |ReplayRows(h.vault, qid, o)|
    ensures HubInv(Answered(h, c, qid, o, n), birth)
  {
    SendToKeeps(h, birth, c, SubOk(qid));
    RowsAreTruthful(h.vault, qid);
    var h1 := h.(chans := h.chans[c := Push(h.chans[c], SubOk(qid))]);
    ReplayKeeps(h1, birth, c, qid, ReplayRows(h.vault, qid, o), o, n);
    assert h1.(chans := h1.chans[c := Answered(h, c, qid, o, n).chans[c]]) == Answered(h, c, qid, o, n);
  }

  lemma SubKeeps(h: Hub, birth: Conn, c: Conn, qid: string, now: int, o: Oracle)
    requires HubInv(h, birth) && Ledger.Sound(h.vault) && (c in h.clients || c in h.kicked)
    requires Known(h, Cached(h, qid).sub)
    ensures HubInv(HandleSub(h, c, qid, now, o).hub, birth)
  {
    if LookupError(h, qid, o).Some? {
      SendToKeeps(h, birth, c, Error(LookupError(h, qid, o).value));
    } else if Cached(h, qid).owner == Some(c) {
      SendToKeeps(h, birth, c, Error(BAD_REQUEST));
    } else {
      TakePlaceKeeps(h, birth, c, qid);
      AnswerKeeps(TakePlace(h, c, qid), birth, c, qid, now, o);
    }
  }

  lemma ForwardKeeps(h: Hub, birth: Conn, c: Conn, sub: Option<Conn>, qid: string, mid: string, payload: Payload,
                     o: Oracle)
    requires HubInv(h, birth) && c < |h.chans| && Known(h, sub) && Truthful(h.vault, Deliver(qid, mid, payload))
    ensures HubInv(Forward(h, c, sub, qid, mid, payload, o).hub, birth)
    ensures sub.Some? ==> HubInv(SendTo(h, sub.value, Deliver(qid, mid, payload)).hub, birth)
  {
    if sub.Some? { SendToKeeps(h, birth, sub.value, Deliver(qid, mid, payload)); }
    var sent := if sub.Some? then SendTo(h, sub.value, Deliver(qid, mid, payload)) else Alive(h);
    if sent.Alive? {
      WrittenKeeps(sent.hub, birth, c, TakesBefore(o, 0));
      SendToKeeps(Written(sent.hub, c, TakesBefore(o, 0)), birth, c, Acked(qid, mid));
    }
  }

  lemma SendKeeps(h: Hub, birth: Conn, c: Conn, env: Envelope, now: int, o: Oracle)
    requires HubInv(h, birth) && (c in h.clients || c in h.kicked)
    requires Known(h, Cached(h, env.qid).sub)
    ensures HubInv(HandleSend(h, c, env, now, o).hub, birth)
  {
    var qid, mid := env.qid, MessageId(env, o);
    var e := Cached(h, qid);
    CachedIsReferenced(h, birth, qid);
    if LookupError(h, qid, o).Some? {
      SendToKeeps(h, birth, c, Error(LookupError(h, qid, o).value));
    } else {
      EntryKeeps(h, birth, qid, e);
      var h1 := h.(queues := h.queues[qid := e]);
      if !Accepts(h, env, o) {
        SendToKeeps(h1, birth, c, Error(SERVER_ERROR));
      } else {
        var vault := Ledger.Touch(Ledger.Accept(h.vault, mid, qid, env.payload, now), qid, now);
        VaultKeeps(h1, birth, vault);
        AcceptedIsTruthful(h.vault, mid, qid, env.payload, now);
        ForwardKeeps(h1.(vault := vault), birth, c, e.sub, qid, mid, env.payload, o);
      }
    }
  }

  lemma AcceptedIsTruthful(v: Vault, mid: string, qid: string, payload: Payload, now: int)
    ensures Truthful(Ledger.Touch(Ledger.Accept(v, mid, qid, payload, now), qid, now), Deliver(qid, mid, payload))
  {
    var v' := Ledger.Touch(Ledger.Accept(v, mid, qid, payload, now), qid, now);
    assert v'.log[|v.log|] == Ledger.Acceptance(mid, qid, payload, now);
  }

  lemma ReadKeeps(h: Hub, birth: Conn, c: Conn, m: Message, now: int, o: Oracle)
    requires HubInv(h, birth) && Ledger.Sound(h.vault) && (c in h.clients || c in h.kicked) && Indexed(h)
    ensures HubInv(Read(h, c, m, now, o).hub, birth)
  {
    SendToKeeps(h, birth, c, Error(BAD_REQUEST));
    SendToKeeps(h, birth, c, Pong);
    if Parse(m).Some? {
      var env := Parse(m).value;
      CachedIsReferenced(h, birth, env.qid);
      match env.kind
      case NEW => NewKeeps(h, birth, c, env, now, o);
      case SUB => SubKeeps(h, birth, c, env.qid, now, o);
      case SEND => SendKeeps(h, birth, c, env, now, o);
      case ACK => VaultKeeps(h, birth, if o.writeFails then h.vault else Ledger.Acknowledge(h.vault, env.mid));
      case _ =>
    }
  }

  /** Commands move connections only from clients to kicked. */
  ghost predicate SameMembers(h: Hub, h': Hub) {
    h'.clients + h'.kicked == h.clients + h.kicked && h'.left == h.left && |h'.chans| == |h.chans|
  }

  lemma SubKeepsMembers(h: Hub, c: Conn, qid: string, now: int, o: Oracle)
    requires c < |h.chans| && Known(h, Cached(h, qid).sub)
    ensures SameMembers(h, HandleSub(h, c, qid, now, o).hub)
  {
    if !Refuses(h, c, qid, o) { assert SameMembers(h, TakePlace(h, c, qid)); }
  }

  lemma SendKeepsMembers(h: Hub, c: Conn, env: Envelope, now: int, o: Oracle)
    requires c < |h.chans| && Known(h, Cached(h, env.qid).sub)
    ensures SameMembers(h, HandleSend(h, c, env, now, o).hub)
  {
  }

  lemma ReadKeepsMembers(h: Hub, c: Conn, m: Message, now: int, o: Oracle)
    requires Indexed(h) && c < |h.chans|
    ensures SameMembers(h, Read(h, c, m, now, o).hub)
  {
    if Parse(m).Some? && Parse(m).value.kind != PING {
      var env := Parse(m).value;
      match env.kind
      case SUB => SubKeepsMembers(h, c, env.qid, now, o);
      case SEND => SendKeepsMembers(h, c, env, now, o);
      case _ =>
    }
  }

  // ---- tables ----

  /** Between Sweep's first two statements no stored message belongs to a queue that the
      second statement would remove. */
  ghost predicate Swept(v: Vault, sweeper: Sweeper, now: int) {
    match sweeper
    case MessagesDone(at) => at <= now && Tables.MaySweepQueues(v.db, at - QUEUE_TTL)
    case QueuesDone(at) => at <= now
    case Idle => true
  }

  ghost predicate VaultInv(v: Vault, now: int) {
    Ledger.Sound(v) && Ledger.Timely(v, now)
  }

  ghost predicate ProcessInv(p: Process) {
    && HubInv(p.hub, p.birth)
    && VaultInv(p.hub.vault, p.now)
    && Swept(p.hub.vault, p.sweeper, p.now)
    && p.now > 0
    && (forall c :: c in p.readers ==> c in p.hub.clients || c in p.hub.kicked)
  }

  lemma TouchedIsNotExpired(v: Vault, qid: string, now: int, sweeper: Sweeper)
    requires Swept(v, sweeper, now)
    ensures Swept(Ledger.Touch(v, qid, now), sweeper, now)
  {
    if sweeper.MessagesDone? {
      var db' := Ledger.Touch(v, qid, now).db;
      forall r | r in db'.rows ensures !Tables.InExpiredQueue(db', r, sweeper.at - QUEUE_TTL) {
        assert !Tables.InExpiredQueue(v.db, r, sweeper.at - QUEUE_TTL);
      }
    }
  }

  lemma AcceptKeepsVault(v: Vault, mid: string, qid: string, payload: Payload, now: int)
    requires VaultInv(v, now) && Ledger.MayAccept(v, mid, qid)
    ensures var v' := Ledger.Accept(v, mid, qid, payload, now);
      VaultInv(v', now) && VaultInv(Ledger.Touch(v', qid, now), now) && v.log <= v'.log
  {
    Ledger.AcceptKeepsSound(v, mid, qid, payload, now);
    Ledger.QueueStatementsKeepSound(Ledger.Accept(v, mid, qid, payload, now), qid, now);
  }

  /** The tables a command leaves are sound, and extend the log. */
  lemma HandleKeepsVault(h: Hub, c: Conn, env: Envelope, now: int, o: Oracle)
    requires Indexed(h) && c < |h.chans| && VaultInv(h.vault, now)
    ensures VaultInv(Handle(h, c, env, now, o).hub.vault, now) && h.vault.log <= Handle(h, c, env, now, o).hub.vault.log
  {
    var qid := env.qid;
    match env.kind
    case NEW =>
      Ledger.QueueStatementsKeepSound(h.vault, o.newId, now);
      Ledger.QueueStatementsKeepSound(Ledger.Create(h.vault, o.newId, now), o.newId, now);
    case SUB =>
      SubStores(h, c, qid, now, o);
      Ledger.QueueStatementsKeepSound(h.vault, qid, now);
    case SEND =>
      SendStores(h, c, env, now, o);
      if Accepts(h, env, o) { AcceptKeepsVault(h.vault, MessageId(env, o), qid, env.payload, now); }
    case ACK =>
      Ledger.AcknowledgeKeepsSound(h.vault, env.mid);
    case _ =>
  }

  /** What a crash may find while a command is handled. */
  ghost predicate StageInv(h: Hub, birth: Conn, now: int, g: Hub) {
    HubInv(g, birth) && VaultInv(g.vault, now) && h.vault.log <= g.vault.log && |g.chans| == |h.chans|
  }

  /** Every stage of a command is sound, and extends the log. */
  lemma StagesKeep(h: Hub, birth: Conn, c: Conn, env: Envelope, now: int, o: Oracle)
    requires HubInv(h, birth) && VaultInv(h.vault, now) && (c in h.clients || c in h.kicked) && Indexed(h)
    ensures forall i :: 0 <= i < |Stages(h, c, env, now, o)| ==> StageInv(h, birth, now, Stages(h, c, env, now, o)[i])
  {
    var hs := Stages(h, c, env, now, o);
    forall i | 0 <= i < |hs| ensures StageInv(h, birth, now, hs[i]) {
      if i < |Between(h, c, env, now, o)| {
        StageKeeps(h, birth, c, env, now, o, i);
      } else {
        LastStageKeeps(h, birth, c, env, now, o);
      }
    }
  }

  lemma LastStageKeeps(h: Hub, birth: Conn, c: Conn, env: Envelope, now: int, o: Oracle)
    requires HubInv(h, birth) && VaultInv(h.vault, now) && (c in h.clients || c in h.kicked) && Indexed(h)
    ensures StageInv(h, birth, now, Read(h, c, Wire(env), now, o).hub)
  {
    ReadKeeps(h, birth, c, Wire(env), now, o);
    ReadKeepsMembers(h, c, Wire(env), now, o);
    HandleKeepsVault(h, c, env, now, o);
  }

  lemma StageKeeps(h: Hub, birth: Conn, c: Conn, env: Envelope, now: int, o: Oracle, i: nat)
    requires HubInv(h, birth) && VaultInv(h.vault, now) && (c in h.clients || c in h.kicked)
    requires Known(h, Cached(h, env.qid).sub) && i < |Between(h, c, env, now, o)|
    ensures StageInv(h, birth, now, Between(h, c, env, now, o)[i])
  {
    match env.kind
    case NEW => NewStageKeeps(h, birth, c, env, now, o, i);
    case SUB => SubStageKeeps(h, birth, c, env, now, o, i);
    case SEND => SendStageKeeps(h, birth, c, env, now, o, i);
    case _ =>
  }

  lemma NewStageKeeps(h: Hub, birth: Conn, c: Conn, env: Envelope, now: int, o: Oracle, i: nat)
    requires HubInv(h, birth) && VaultInv(h.vault, now) && env.kind == NEW && c < |h.chans|
    requires Known(h, Cached(h, env.qid).sub) && i < |Between(h, c, env, now, o)|
    ensures StageInv(h, birth, now, Between(h, c, env, now, o)[i])
  {
    var v1 := Ledger.Create(h.vault, o.newId, now);
    Ledger.QueueStatementsKeepSound(h.vault, o.newId, now);
    Ledger.QueueStatementsKeepSound(v1, o.newId, now);
    VaultStage(h, birth, now, v1);
    VaultStage(h, birth, now, Ledger.Touch(v1, o.newId, now));
  }

  lemma SubStageKeeps(h: Hub, birth: Conn, c: Conn, env: Envelope, now: int, o: Oracle, i: nat)
    requires HubInv(h, birth) && VaultInv(h.vault, now) && (c in h.clients || c in h.kicked) && env.kind == SUB
    requires Known(h, Cached(h, env.qid).sub) && i < |Between(h, c, env, now, o)|
    ensures StageInv(h, birth, now, Between(h, c, env, now, o)[i])
  {
    if i > 0 { SubBetweenAt(h, c, env, now, o, i); }
    if i == 1 { TakenStage(h, birth, c, env.qid, now); }
    if i >= 2 { AnsweredStage(h, birth, c, env.qid, now, o, i - 2); }
  }

  lemma TakenStage(h: Hub, birth: Conn, c: Conn, qid: string, now: int)
    requires HubInv(h, birth) && VaultInv(h.vault, now) && (c in h.clients || c in h.kicked)
    requires Known(h, Cached(h, qid).sub) && Cached(h, qid).owner != Some(c)
    ensures StageInv(h, birth, now, TakePlace(h, c, qid))
  {
    TakePlaceKeeps(h, birth, c, qid);
  }

  lemma AnsweredStage(h: Hub, birth: Conn, c: Conn, qid: string, now: int, o: Oracle, n: nat)
    requires HubInv(h, birth) && VaultInv(h.vault, now) && (c in h.clients || c in h.kicked)
    requires Known(h, Cached(h, qid).sub) && Cached(h, qid).owner != Some(c)
    requires Open(TakePlace(h, c, qid).chans[c]) && n <= |ReplayRows(h.vault, qid, o)|
    ensures StageInv(h, birth, now, Answered(TakePlace(h, c, qid), c, qid, o, n))
  {
    TakePlaceKeeps(h, birth, c, qid);
    AnsweredKeeps(TakePlace(h, c, qid), birth, c, qid, o, n);
  }

  lemma SendStageKeeps(h: Hub, birth: Conn, c: Conn, env: Envelope, now: int, o: Oracle, i: nat)
    requires HubInv(h, birth) && VaultInv(h.vault, now) && (c in h.clients || c in h.kicked) && env.kind == SEND
    requires Known(h, Cached(h, env.qid).sub) && i < |Between(h, c, env, now, o)|
    ensures StageInv(h, birth, now, Between(h, c, env, now, o)[i])
  {
    if i > 0 {
      SendBetweenAt(h, c, env, now, o, i);
      AcceptedStage(h, birth, c, env, now, o);
    }
  }

  lemma AcceptedStage(h: Hub, birth: Conn, c: Conn, env: Envelope, now: int, o: Oracle)
    requires HubInv(h, birth) && VaultInv(h.vault, now) && (c in h.clients || c in h.kicked) && Accepts(h, env, o)
    requires Known(h, Cached(h, env.qid).sub)
    ensures var qid, mid, sub := env.qid, MessageId(env, o), Cached(h, env.qid).sub;
      var saved := Ledger.Accept(h.vault, mid, qid, env.payload, now);
      var touched := h.(vault := Ledger.Touch(saved, qid, now));
      && StageInv(h, birth, now, h.(vault := saved)) && StageInv(h, birth, now, touched)
      && (sub.Some? ==> StageInv(h, birth, now, SendTo(touched, sub.value, Deliver(qid, mid, env.payload)).hub))
  {
    var qid, mid, e := env.qid, MessageId(env, o), Cached(h, env.qid);
    var v1 := Ledger.Accept(h.vault, mid, qid, env.payload, now);
    var v2 := Ledger.Touch(v1, qid, now);
    AcceptKeepsVault(h.vault, mid, qid, env.payload, now);
    VaultStage(h, birth, now, v1);
    VaultStage(h, birth, now, v2);
    AcceptedIsTruthful(h.vault, mid, qid, env.payload, now);
    if e.sub.Some? { SendToKeeps(h.(vault := v2), birth, e.sub.value, Deliver(qid, mid, env.payload)); }
  }

  lemma VaultStage(h: Hub, birth: Conn, now: int, v: Vault)
    requires HubInv(h, birth) && VaultInv(v, now) && h.vault.log <= v.log
    ensures StageInv(h, birth, now, h.(vault := v))
  {
    VaultKeeps(h, birth, v);
  }

  /** A command that completes leaves nothing for Sweep's second statement to stumble on: a
      SEND touches the queue it stores into. */
  lemma HandleKeepsSwept(h: Hub, c: Conn, env: Envelope, now: int, o: Oracle, sweeper: Sweeper)
    requires Indexed(h) && c < |h.chans| && Swept(h.vault, sweeper, now)
    ensures Swept(Handle(h, c, env, now, o).hub.vault, sweeper, now)
  {
    var qid, mid := env.qid, MessageId(env, o);
    match env.kind
    case NEW =>
      TouchedIsNotExpired(Ledger.Create(h.vault, o.newId, now), o.newId, now, sweeper) by {
        if sweeper.MessagesDone? {
          var db' := Ledger.Create(h.vault, o.newId, now).db;
          forall r | r in db'.rows ensures !Tables.InExpiredQueue(db', r, sweeper.at - QUEUE_TTL) {
            assert !Tables.InExpiredQueue(h.vault.db, r, sweeper.at - QUEUE_TTL);
          }
        }
      }
    case SUB =>
      SubStores(h, c, qid, now, o);
      TouchedIsNotExpired(h.vault, qid, now, sweeper);
    case SEND =>
      SendStores(h, c, env, now, o);
      if Accepts(h, env, o) && sweeper.MessagesDone? {
        var db' := Ledger.Touch(Ledger.Accept(h.vault, mid, qid, env.payload, now), qid, now).db;
        forall r | r in db'.rows ensures !Tables.InExpiredQueue(db', r, sweeper.at - QUEUE_TTL) {
          if r in h.vault.db.rows { assert !Tables.InExpiredQueue(h.vault.db, r, sweeper.at - QUEUE_TTL); }
        }
      }
    case ACK =>
    case _ =>
  }

  /** Even where a command crashes, what it leaves is sound. */
  lemma HandledIsSound(p: Process, c: Conn, m: Message, o: Oracle)
    requires ProcessInv(p) && Enabled(p, Incoming(c, m, o))
    ensures ProcessInv(p.(hub := Read(p.hub, c, m, p.now, o).hub))
    ensures StageInv(p.hub, p.birth, p.now, Read(p.hub, c, m, p.now, o).hub)
  {
    ReadKeeps(p.hub, p.birth, c, m, p.now, o);
    ReadKeepsMembers(p.hub, c, m, p.now, o);
    if Parse(m).Some? && Parse(m).value.kind != PING {
      var env := Parse(m).value;
      HandleKeepsVault(p.hub, c, env, p.now, o);
      HandleKeepsSwept(p.hub, c, env, p.now, o, p.sweeper);
    }
  }

  lemma IncomingKeeps(p: Process, c: Conn, m: Message, o: Oracle)
    requires ProcessInv(p) && Enabled(p, Incoming(c, m, o))
    ensures ProcessInv(Apply(p, Incoming(c, m, o)))
  {
    HandledIsSound(p, c, m, o);
    var out := Read(p.hub, c, m, p.now, o);
    if out.Crashed? { RebootKeeps(p, out.hub); }
  }

  lemma RebootKeeps(p: Process, g: Hub)
    requires ProcessInv(p) && StageInv(p.hub, p.birth, p.now, g)
    ensures ProcessInv(Rebooted(p, g))
  {
    var h' := Rebooted(p, g).hub;
    forall c: Conn, i | c < |h'.chans| && 0 <= i < |h'.chans[c].tried|
      ensures Truthful(h'.vault, h'.chans[c].tried[i])
    {
      assert Truthful(g.vault, g.chans[c].tried[i]);
    }
  }

  lemma SweepMessagesKeeps(p: Process, at: int)
    requires ProcessInv(p) && Enabled(p, SweepMessages(at))
    ensures ProcessInv(Apply(p, SweepMessages(at)))
  {
    var v := p.hub.vault;
    Ledger.ExpireMessagesKeepsSound(v, at - QUEUE_TTL);
    VaultKeeps(p.hub, p.birth, Ledger.ExpireMessages(v, at - QUEUE_TTL));
    Tables.SweepMessagesClearsTheWay(v.db, at - QUEUE_TTL);
  }

  lemma SweepQueuesKeeps(p: Process)
    requires ProcessInv(p) && Enabled(p, SweepQueues)
    ensures ProcessInv(Apply(p, SweepQueues))
  {
    var v, cutoff := p.hub.vault, p.sweeper.at - QUEUE_TTL;
    Ledger.ExpireQueuesKeepsSound(v, cutoff);
    VaultKeeps(p.hub, p.birth, Ledger.ExpireQueues(v, cutoff));
  }

  lemma SweepResidueKeeps(p: Process)
    requires ProcessInv(p) && p.sweeper.QueuesDone?
    ensures ProcessInv(Apply(p, SweepResidue))
  {
    Ledger.ResidueIsEmpty(p.hub.vault, p.sweeper.at - ACK_GRACE);
    assert Apply(p, SweepResidue) == p.(sweeper := Idle);
  }

  /** Every step of the process, whatever clients send, keeps every invariant. */
  lemma StepKeeps(p: Process, s: Step)
    requires ProcessInv(p) && Enabled(p, s)
    ensures ProcessInv(Apply(p, s))
  {
    match s
    case Connect => RegisterKeeps(p.hub, p.birth);
    case Incoming(c, m, o) => IncomingKeeps(p, c, m, o);
    case Disconnect(c) => UnregisterKeeps(p.hub, p.birth, c);
    case Pop(c) => WrittenKeeps(p.hub, p.birth, c, 1);
    case SweepMessages(at) => SweepMessagesKeeps(p, at);
    case SweepQueues => SweepQueuesKeeps(p);
    case SweepResidue => SweepResidueKeeps(p);
    case SweepFails =>
    case Tick(to) =>
    case Restart => RebootKeeps(p, p.hub);
    case Die(c, env, o, stage) =>
      StagesKeep(p.hub, p.birth, c, env, p.now, o);
      RebootKeeps(p, Stages(p.hub, c, env, p.now, o)[stage]);
  }

  lemma {:induction false} RunKeeps(p: Process, ss: seq<Step>, p': Process)
    requires ProcessInv(p) && Runs(p, ss, p')
    ensures ProcessInv(p')
    decreases ss
  {
    if ss != [] {
      StepKeeps(p, ss[0]);
      RunKeeps(Apply(p, ss[0]), ss[1..], p');
    }
  }

  lemma StartIsSound()
    ensures ProcessInv(START)
  {
  }
}
