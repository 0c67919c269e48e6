/** The hub of server/hub.go as a state machine on values: routing table, connections and
    their channels, and what each command does to them. The class in Hub.dfy is the
    imperative form of these functions. */
module Relay {
  import opened Ids
  import opened Frames
  import opened Channel
  import Tables
  import Ledger

  type Vault = Ledger.Vault

  /** Connections are numbered in the order they are registered. */
  type Conn = nat

  datatype Entry = Entry(owner: Option<Conn>, sub: Option<Conn>)

  const NOBODY := Entry(None, None)

  /** clients and queues are the hub's two maps; chans holds the channel of every connection
      ever registered. kicked and left record how connections of this process left clients. */
  datatype Hub = Hub(vault: Vault, clients: set<Conn>, queues: map<string, Entry>, chans: seq<Chan>,
                     kicked: set<Conn>, left: set<Conn>)

  /** A send on a closed channel, or a slice beyond a short id, panics and ends the process:
      then hub is what the panic found. */
  datatype Outcome = Alive(hub: Hub) | Crashed(hub: Hub)

  /** What the environment decides while one command is handled: the id NewID draws, which
      calls fail, and how many frames the write pump takes before each send. */
  datatype Oracle = Oracle(newId: string, idFails: bool, existsFails: bool, queryFails: bool,
                           writeFails: bool, takes: seq<nat>)

  function TakesBefore(o: Oracle, i: nat): nat {
    if i < |o.takes| then o.takes[i] else 0
  }

  predicate Known(h: Hub, who: Option<Conn>) {
    who.Some? ==> who.value < |h.chans|
  }

  /** Every connection the hub mentions has a channel. */
  ghost predicate Indexed(h: Hub) {
    && (forall c :: c in h.clients ==> c < |h.chans|)
    && (forall q :: q in h.queues ==> Known(h, h.queues[q].owner) && Known(h, h.queues[q].sub))
  }

  // ---- connections ----

  function Register(h: Hub): Hub {
    h.(clients := h.clients + {|h.chans|}, chans := h.chans + [NEW_CHAN])
  }

  function Drop(e: Entry, c: Conn): Entry {
    Entry(if e.owner == Some(c) then None else e.owner, if e.sub == Some(c) then None else e.sub)
  }

  /** releaseQueue: c leaves both roles, entries without a role leave the table. */
  function Release(queues: map<string, Entry>, c: Conn): map<string, Entry> {
    map q | q in queues && Drop(queues[q], c) != NOBODY :: Drop(queues[q], c)
  }

  function Unregister(h: Hub, c: Conn): Hub
    requires c < |h.chans|
  {
    if c in h.clients then
      h.(clients := h.clients - {c}, chans := h.chans[c := Close(h.chans[c])],
         queues := Release(h.queues, c), left := h.left + {c})
    else h
  }

  /** kick closes the channel and forgets the connection, but leaves the table alone. */
  function Kick(h: Hub, c: Conn): Hub
    requires c < |h.chans|
  {
    if c in h.clients then
      h.(clients := h.clients - {c}, chans := h.chans[c := Close(h.chans[c])], kicked := h.kicked + {c})
    else h
  }

  // ---- sending ----

  function SendTo(h: Hub, c: Conn, f: Frame): Outcome
    requires c < |h.chans|
  {
    if Open(h.chans[c]) then Alive(h.(chans := h.chans[c := Push(h.chans[c], f)])) else Crashed(h)
  }

  function Written(h: Hub, c: Conn, k: nat): Hub
    requires c < |h.chans|
  {
    h.(chans := h.chans[c := Take(h.chans[c], k)])
  }

  function DeliverRow(qid: string, r: Tables.Row): Frame {
    Deliver(qid, r.mid, r.payload)
  }

  /** replayOffline after its first n rows. */
  function Replay(ch: Chan, qid: string, rows: seq<Tables.Row>, o: Oracle, n: nat): Chan
    requires n <= |rows|
  {
    if n == 0 then ch
    else Push(Take(Replay(ch, qid, rows, o, n - 1), TakesBefore(o, n - 1)), DeliverRow(qid, rows[n - 1]))
  }

  // ---- commands ----

  function HandleNew(h: Hub, c: Conn, env: Envelope, now: int, o: Oracle): Outcome
    requires c < |h.chans|
  {
    if env.qid != "" then SendTo(h, c, Error(BAD_REQUEST))
    else if o.idFails || o.writeFails then SendTo(h, c, Error(SERVER_ERROR))
    else
      var vault := Ledger.Touch(Ledger.Create(h.vault, o.newId, now), o.newId, now);
      SendTo(h.(vault := vault, queues := h.queues[o.newId := Entry(Some(c), None)]), c, NewOk(o.newId))
  }

  /** The cached entry, or the one revived from the tables. */
  function Cached(h: Hub, qid: string): Entry {
    if qid in h.queues then h.queues[qid] else NOBODY
  }

  /** The lookup shared by SUB and SEND; None when it succeeds. */
  function LookupError(h: Hub, qid: string, o: Oracle): Option<int> {
    if !ValidQueueID(qid) then Some(BAD_REQUEST)
    else if qid in h.queues then None
    else if o.existsFails then Some(SERVER_ERROR)
    else if qid !in h.vault.db.queues then Some(QUEUE_NOT_FOUND)
    else None
  }

  /** c subscribes, and whoever else was the subscriber is kicked. */
  function TakePlace(h: Hub, c: Conn, qid: string): (h': Hub)
    requires Known(h, Cached(h, qid).sub)
    ensures |h'.chans| == |h.chans|
  {
    var e := Cached(h, qid);
    var h1 := if e.sub.Some? && e.sub != Some(c) then Kick(h, e.sub.value) else h;
    h1.(queues := h1.queues[qid := e.(sub := Some(c))])
  }

  function ReplayRows(v: Vault, qid: string, o: Oracle): seq<Tables.Row> {
    if o.queryFails then [] else Tables.Undelivered(v.db, qid)
  }

  /** SUB_OK first, then the replay of what is undelivered. */
  function Answer(h: Hub, c: Conn, qid: string, now: int, o: Oracle): Outcome
    requires c < |h.chans|
  {
    match SendTo(h, c, SubOk(qid))
    case Crashed(g) => Crashed(g)
    case Alive(h') =>
      var rows := ReplayRows(h'.vault, qid, o);
      Alive(h'.(chans := h'.chans[c := Replay(h'.chans[c], qid, rows, o, |rows|)],
                vault := Ledger.Touch(h'.vault, qid, now)))
  }

  function HandleSub(h: Hub, c: Conn, qid: string, now: int, o: Oracle): Outcome
    requires c < |h.chans| && Known(h, Cached(h, qid).sub)
  {
    var e := Cached(h, qid);
    if LookupError(h, qid, o).Some? then SendTo(h, c, Error(LookupError(h, qid, o).value))
    else if e.owner == Some(c) then SendTo(h, c, Error(BAD_REQUEST))
    else
      Answer(TakePlace(h, c, qid), c, qid, now, o)
  }

  predicate Refuses(h: Hub, c: Conn, qid: string, o: Oracle) {
    LookupError(h, qid, o).Some? || Cached(h, qid).owner == Some(c)
  }

  function MessageId(env: Envelope, o: Oracle): string {
    if env.mid != "" then env.mid else if o.idFails then "" else o.newId
  }

  predicate Accepts(h: Hub, env: Envelope, o: Oracle) {
    && LookupError(h, env.qid, o).None?
    && !o.writeFails && Ledger.MayAccept(h.vault, MessageId(env, o), env.qid)
  }

  /** Logging slices the first eight characters of an id. */
  predicate Sliceable(id: string) {
    |id| >= 8
  }

  /** A stored message goes to the subscriber, if any, and its sender is told. */
  function Forward(h: Hub, c: Conn, sub: Option<Conn>, qid: string, mid: string, payload: Payload, o: Oracle): Outcome
    requires c < |h.chans| && Known(h, sub)
  {
    match if sub.Some? then SendTo(h, sub.value, Deliver(qid, mid, payload)) else Alive(h)
    case Crashed(g) => Crashed(g)
    case Alive(h') =>
      if Sliceable(mid) then SendTo(Written(h', c, TakesBefore(o, 0)), c, Acked(qid, mid))
      else Crashed(h')
  }

  function HandleSend(h: Hub, c: Conn, env: Envelope, now: int, o: Oracle): Outcome
    requires c < |h.chans| && Known(h, Cached(h, env.qid).sub)
  {
    var qid, mid := env.qid, MessageId(env, o);
    if LookupError(h, qid, o).Some? then SendTo(h, c, Error(LookupError(h, qid, o).value))
    else
      var e := Cached(h, qid);
      var h1 := h.(queues := h.queues[qid := e]);
      if !Accepts(h, env, o) then SendTo(h1, c, Error(SERVER_ERROR))
      else
        var h2 := h1.(vault := Ledger.Touch(Ledger.Accept(h.vault, mid, qid, env.payload, now), qid, now));
        Forward(h2, c, e.sub, qid, mid, env.payload, o)
  }

  function HandleAck(h: Hub, env: Envelope, o: Oracle): Outcome {
    var vault := if o.writeFails then h.vault else Ledger.Acknowledge(h.vault, env.mid);
    if Sliceable(env.qid) && Sliceable(env.mid) then Alive(h.(vault := vault)) else Crashed(h.(vault := vault))
  }

  function Handle(h: Hub, c: Conn, env: Envelope, now: int, o: Oracle): Outcome
    requires Indexed(h) && c < |h.chans|
  {
    match env.kind
    case NEW => HandleNew(h, c, env, now, o)
    case SUB => HandleSub(h, c, env.qid, now, o)
    case SEND => HandleSend(h, c, env, now, o)
    case ACK => HandleAck(h, env, o)
    case _ => SendTo(h, c, Error(BAD_REQUEST))
  }

  /** The server's read pump: a bad message and PING are answered by the connection's own
      goroutine, everything else goes through the hub. */
  function Read(h: Hub, c: Conn, m: Message, now: int, o: Oracle): Outcome
    requires Indexed(h) && c < |h.chans|
  {
    match Parse(m)
    case None => SendTo(h, c, Error(BAD_REQUEST))
    case Some(env) => if env.kind == PING then SendTo(h, c, Pong) else Handle(h, c, env, now, o)
  }

  /** The hub after each durable statement and each send while a command is handled, but for
      the last: where the end of the process may find it. */
  function Between(h: Hub, c: Conn, env: Envelope, now: int, o: Oracle): (hs: seq<Hub>)
    requires c < |h.chans| && Known(h, Cached(h, env.qid).sub)
    ensures |hs| > 0 && hs[0] == h
  {
    match env.kind
    case NEW =>
      if env.qid != "" || o.idFails || o.writeFails then [h]
      else
        var created := h.(vault := Ledger.Create(h.vault, o.newId, now));
        [h, created, created.(vault := Ledger.Touch(created.vault, o.newId, now))]
    case SUB => [h] + (if Refuses(h, c, env.qid, o) then [] else Answering(TakePlace(h, c, env.qid), c, env.qid, o))
    case SEND =>
      if !Accepts(h, env, o) then [h]
      else
        var saved := h.(vault := Ledger.Accept(h.vault, MessageId(env, o), env.qid, env.payload, now));
        var touched := saved.(vault := Ledger.Touch(saved.vault, env.qid, now));
        [h, saved, touched] + Forwarding(touched, Cached(h, env.qid).sub, env.qid, MessageId(env, o), env.payload)
    case _ => [h]
  }

  /** A SUB that has taken its place: SUB_OK, then one row after the other. */
  function Answering(h: Hub, c: Conn, qid: string, o: Oracle): seq<Hub>
    requires c < |h.chans|
  {
    if !Open(h.chans[c]) then [h]
    else
      var rows := ReplayRows(h.vault, qid, o);
      [h] + seq(|rows| + 1, n requires 0 <= n <= |rows| => Answered(h, c, qid, o, n))
  }

  /** SUB_OK and the first n rows have been offered. */
  function Answered(h: Hub, c: Conn, qid: string, o: Oracle, n: nat): Hub
    requires c < |h.chans| && n <= |ReplayRows(h.vault, qid, o)|
  {
    var rows := ReplayRows(h.vault, qid, o);
    h.(chans := h.chans[c := Replay(Push(h.chans[c], SubOk(qid)), qid, rows, o, n)])
  }

  /** Before the last stage of a SUB: nothing done, the place taken, or partly answered. */
  lemma SubBetweenAt(h: Hub, c: Conn, env: Envelope, now: int, o: Oracle, i: nat)
    requires c < |h.chans| && Known(h, Cached(h, env.qid).sub) && env.kind == SUB
    requires 0 < i < |Between(h, c, env, now, o)|
    ensures !Refuses(h, c, env.qid, o)
    ensures var g, h1 := Between(h, c, env, now, o)[i], TakePlace(h, c, env.qid);
      if i == 1 then g == h1
      else
        && Open(h1.chans[c]) && i - 2 <= |ReplayRows(h1.vault, env.qid, o)|
        && g == Answered(h1, c, env.qid, o, i - 2)
  {
    SubBetweenIsAnswering(h, c, env, now, o, i);
    if i > 1 { AnsweringAt(TakePlace(h, c, env.qid), c, env.qid, o, i - 2); }
  }

  lemma SubBetweenIsAnswering(h: Hub, c: Conn, env: Envelope, now: int, o: Oracle, i: nat)
    requires c < |h.chans| && Known(h, Cached(h, env.qid).sub) && env.kind == SUB
    requires 0 < i < |Between(h, c, env, now, o)|
    ensures !Refuses(h, c, env.qid, o) && i - 1 < |Answering(TakePlace(h, c, env.qid), c, env.qid, o)|
    ensures Between(h, c, env, now, o)[i] == Answering(TakePlace(h, c, env.qid), c, env.qid, o)[i - 1]
  {
  }

  lemma AnsweringAt(h: Hub, c: Conn, qid: string, o: Oracle, n: nat)
    requires c < |h.chans| && n + 1 < |Answering(h, c, qid, o)|
    ensures Open(h.chans[c]) && n <= |ReplayRows(h.vault, qid, o)|
    ensures Answering(h, c, qid, o)[n + 1] == Answered(h, c, qid, o, n)
  {
  }

  /** Of a SEND: nothing done, saved, touched, or delivered. */
  lemma SendBetweenAt(h: Hub, c: Conn, env: Envelope, now: int, o: Oracle, i: nat)
    requires c < |h.chans| && Known(h, Cached(h, env.qid).sub) && env.kind == SEND
    requires 0 < i < |Between(h, c, env, now, o)|
    ensures Accepts(h, env, o) && i <= 3
    ensures var g, e, mid := Between(h, c, env, now, o)[i], Cached(h, env.qid), MessageId(env, o);
      var saved := Ledger.Accept(h.vault, mid, env.qid, env.payload, now);
      var touched := h.(vault := Ledger.Touch(saved, env.qid, now));
      if i == 1 then g == h.(vault := saved)
      else if i == 2 then g == touched
      else e.sub.Some? && g == SendTo(touched, e.sub.value, Deliver(env.qid, mid, env.payload)).hub
  {
  }

  /** An answer to a SUB that came through is the last of those. */
  lemma AnswerEnds(h: Hub, c: Conn, qid: string, now: int, o: Oracle)
    requires c < |h.chans|
    ensures var out, rows := Answer(h, c, qid, now, o), ReplayRows(h.vault, qid, o);
      if Open(h.chans[c])
      then out == Alive(Answered(h, c, qid, o, |rows|).(vault := Ledger.Touch(h.vault, qid, now)))
      else out == Crashed(h)
  {
  }

  /** A stored message that has reached its subscriber. */
  function Forwarding(h: Hub, sub: Option<Conn>, qid: string, mid: string, payload: Payload): seq<Hub>
    requires Known(h, sub)
  {
    if sub.Some? then [SendTo(h, sub.value, Deliver(qid, mid, payload)).hub] else []
  }

  function Stages(h: Hub, c: Conn, env: Envelope, now: int, o: Oracle): (hs: seq<Hub>)
    requires Indexed(h) && c < |h.chans|
    ensures |hs| > 0
  {
    Between(h, c, env, now, o) + [Read(h, c, Wire(env), now, o).hub]
  }

  /** What a SEND does to the routing table. */
  lemma SendTables(h: Hub, c: Conn, env: Envelope, now: int, o: Oracle)
    requires c < |h.chans| && Known(h, Cached(h, env.qid).sub)
    ensures var h' := HandleSend(h, c, env, now, o).hub;
      && h'.clients == h.clients
      && (h'.queues == h.queues || h'.queues == h.queues[env.qid := Cached(h, env.qid)])
  {
  }

  /** What a SUB stores. */
  lemma SubStores(h: Hub, c: Conn, qid: string, now: int, o: Oracle)
    requires c < |h.chans| && Known(h, Cached(h, qid).sub)
    ensures var v := HandleSub(h, c, qid, now, o).hub.vault;
      v == h.vault || (!Refuses(h, c, qid, o) && v == Ledger.Touch(h.vault, qid, now))
  {
  }

  /** What a SEND stores, even when it crashes later. */
  lemma SendStores(h: Hub, c: Conn, env: Envelope, now: int, o: Oracle)
    requires c < |h.chans| && Known(h, Cached(h, env.qid).sub)
    ensures HandleSend(h, c, env, now, o).hub.vault
         == if Accepts(h, env, o)
            then Ledger.Touch(Ledger.Accept(h.vault, MessageId(env, o), env.qid, env.payload, now), env.qid, now)
            else h.vault
  {
  }

  /** A SUB that is granted: what the subscriber's channel holds then. */
  lemma SubReplays(h: Hub, c: Conn, qid: string, now: int, o: Oracle)
    requires c < |h.chans| && Known(h, Cached(h, qid).sub) && HandleSub(h, c, qid, now, o).Alive?
    requires !Refuses(h, c, qid, o)
    ensures var h', rows := HandleSub(h, c, qid, now, o).hub, ReplayRows(h.vault, qid, o);
      && |h'.chans| == |h.chans| && h'.vault == Ledger.Touch(h.vault, qid, now)
      && h'.chans[c] == Replay(Push(h.chans[c], SubOk(qid)), qid, rows, o, |rows|)
  {
    var h1 := TakePlace(h, c, qid);
    assert h1.chans[c] == h.chans[c] && h1.vault == h.vault;
    assert HandleSub(h, c, qid, now, o) == Answer(h1, c, qid, now, o);
  }
}
