/** The hub's routing table is only a cache. Office is a relay that keeps an entry for every
    stored queue and never evicts or revives one. Step by step the hub behaves like it,
    except exactly when a connection asks for a cached queue that is no longer stored. */
module Mailbox {
  import opened Ids
  import opened Frames
  import opened Channel
  import opened Relay
  import opened Steps
  import Tables
  import Ledger

  /** boxes has exactly one entry per stored queue. */
  datatype Office = Office(vault: Vault, clients: set<Conn>, boxes: map<string, Entry>, chans: seq<Chan>)

  /** What the end of the process leaves: the tables, and the channels, closed. */
  datatype Remains = Remains(vault: Vault, chans: seq<Chan>)

  datatype Result = Running(office: Office) | Down(remains: Remains)

  function Left(x: Office): Remains {
    Remains(x.vault, Ended(x.chans))
  }

  function Send(x: Office, c: Conn, f: Frame): Result
    requires c < |x.chans|
  {
    if Open(x.chans[c]) then Running(x.(chans := x.chans[c := Push(x.chans[c], f)])) else Down(Left(x))
  }

  predicate Listed(x: Office, who: Option<Conn>) {
    who.Some? ==> who.value < |x.chans|
  }

  function Expel(x: Office, c: Conn): Office
    requires c < |x.chans|
  {
    if c in x.clients then x.(clients := x.clients - {c}, chans := x.chans[c := Close(x.chans[c])]) else x
  }

  function OpenBox(x: Office, c: Conn, env: Envelope, now: int, o: Oracle): Result
    requires c < |x.chans|
  {
    if env.qid != "" then Send(x, c, Error(BAD_REQUEST))
    else if o.idFails || o.writeFails then Send(x, c, Error(SERVER_ERROR))
    else
      Send(x.(vault := Ledger.Touch(Ledger.Create(x.vault, o.newId, now), o.newId, now),
              boxes := x.boxes[o.newId := Entry(Some(c), None)]), c, NewOk(o.newId))
  }

  /** Both look a queue up in the tables; fails: the query fails, and is answered so. The
      hub queries only queues it has not cached (Faulted). */
  function BoxError(x: Office, qid: string, fails: bool): Option<int> {
    if !ValidQueueID(qid) then Some(BAD_REQUEST)
    else if fails then Some(SERVER_ERROR)
    else if qid !in x.boxes then Some(QUEUE_NOT_FOUND)
    else None
  }

  function Subscribe(x: Office, c: Conn, qid: string, now: int, fails: bool, o: Oracle): Result
    requires c < |x.chans| && (qid in x.boxes ==> Listed(x, x.boxes[qid].sub))
  {
    if BoxError(x, qid, fails).Some? then Send(x, c, Error(BoxError(x, qid, fails).value))
    else if x.boxes[qid].owner == Some(c) then Send(x, c, Error(BAD_REQUEST))
    else
      HandOver(MakeRoom(x, c, qid), c, qid, now, o)
  }

  function MakeRoom(x: Office, c: Conn, qid: string): (x': Office)
    requires qid in x.boxes && Listed(x, x.boxes[qid].sub)
    ensures |x'.chans| == |x.chans|
  {
    var rival := x.boxes[qid].sub;
    var x1 := if rival.Some? && rival != Some(c) then Expel(x, rival.value) else x;
    x1.(boxes := x1.boxes[qid := x1.boxes[qid].(sub := Some(c))])
  }

  function HandOver(x: Office, c: Conn, qid: string, now: int, o: Oracle): Result
    requires c < |x.chans|
  {
    match Send(x, c, SubOk(qid))
    case Down(r) => Down(r)
    case Running(x') =>
      var rows := ReplayRows(x'.vault, qid, o);
      Running(x'.(chans := x'.chans[c := Replay(x'.chans[c], qid, rows, o, |rows|)],
                  vault := Ledger.Touch(x'.vault, qid, now)))
  }

  function PassOn(x: Office, c: Conn, sub: Option<Conn>, qid: string, mid: string, payload: Payload, o: Oracle): Result
    requires c < |x.chans| && Listed(x, sub)
  {
    match if sub.Some? then Send(x, sub.value, Deliver(qid, mid, payload)) else Running(x)
    case Down(r) => Down(r)
    case Running(x') =>
      if Sliceable(mid) then Send(x'.(chans := x'.chans[c := Take(x'.chans[c], TakesBefore(o, 0))]), c, Acked(qid, mid))
      else Down(Left(x'))
  }

  function Post(x: Office, c: Conn, env: Envelope, now: int, fails: bool, o: Oracle): Result
    requires c < |x.chans| && (env.qid in x.boxes ==> Listed(x, x.boxes[env.qid].sub))
  {
    var qid, mid := env.qid, MessageId(env, o);
    if BoxError(x, qid, fails).Some? then Send(x, c, Error(BoxError(x, qid, fails).value))
    else if o.writeFails || exists r :: r in x.vault.db.rows && r.mid == mid then Send(x, c, Error(SERVER_ERROR))
    else
      var x1 := x.(vault := Ledger.Touch(Ledger.Accept(x.vault, mid, qid, env.payload, now), qid, now));
      PassOn(x1, c, x.boxes[qid].sub, qid, mid, env.payload, o)
  }

  ghost predicate OfficeIndexed(x: Office) {
    && (forall c :: c in x.clients ==> c < |x.chans|)
    && (forall q :: q in x.boxes ==> Listed(x, x.boxes[q].owner) && Listed(x, x.boxes[q].sub))
  }

  function Attend(x: Office, c: Conn, m: Message, now: int, fails: bool, o: Oracle): Result
    requires OfficeIndexed(x) && c < |x.chans|
  {
    match Parse(m)
    case None => Send(x, c, Error(BAD_REQUEST))
    case Some(env) =>
      match env.kind
      case PING => Send(x, c, Pong)
      case NEW => OpenBox(x, c, env, now, o)
      case SUB => Subscribe(x, c, env.qid, now, fails, o)
      case SEND => Post(x, c, env, now, fails, o)
      case ACK =>
        var vault := if o.writeFails then x.vault else Ledger.Acknowledge(x.vault, env.mid);
        var x' := x.(vault := vault);
        if Sliceable(env.qid) && Sliceable(env.mid) then Running(x') else Down(Left(x'))
      case OTHER => Send(x, c, Error(BAD_REQUEST))
  }

  /** The office of a hub: what the tables know, with the roles the cache remembers. */
  function Seen(h: Hub): Office {
    Office(h.vault, h.clients, map q | q in h.vault.db.queues :: Cached(h, q), h.chans)
  }

  function SeenOutcome(out: Outcome): Result {
    match out case Alive(h) => Running(Seen(h)) case Crashed(h) => Down(Left(Seen(h)))
  }

  lemma SeenIsIndexed(h: Hub)
    requires Indexed(h)
    ensures OfficeIndexed(Seen(h))
  {
  }

  // ---- commands ----

  lemma SendMatches(h: Hub, c: Conn, f: Frame)
    requires c < |h.chans|
    ensures SeenOutcome(SendTo(h, c, f)) == Send(Seen(h), c, f)
  {
  }

  lemma KickMatches(h: Hub, c: Conn)
    requires c < |h.chans|
    ensures Seen(Kick(h, c)) == Expel(Seen(h), c) && Kick(h, c).queues == h.queues && Kick(h, c).vault == h.vault
  {
  }

  lemma NewMatches(h: Hub, c: Conn, env: Envelope, now: int, o: Oracle)
    requires Indexed(h) && c < |h.chans|
    ensures SeenOutcome(HandleNew(h, c, env, now, o)) == OpenBox(Seen(h), c, env, now, o)
  {
    if env.qid == "" && !o.idFails && !o.writeFails {
      var vault := Ledger.Touch(Ledger.Create(h.vault, o.newId, now), o.newId, now);
      var h1 := h.(vault := vault, queues := h.queues[o.newId := Entry(Some(c), None)]);
      assert Seen(h1).boxes == Seen(h).boxes[o.newId := Entry(Some(c), None)];
      SendMatches(h1, c, NewOk(o.newId));
    }
  }

  lemma EntryMatches(h: Hub, qid: string, e: Entry)
    requires qid in h.vault.db.queues
    ensures Seen(h.(queues := h.queues[qid := e])) == Seen(h).(boxes := Seen(h).boxes[qid := e])
  {
  }

  lemma ReplayMatches(h: Hub, qid: string, ch: Chan, c: Conn, now: int)
    requires c < |h.chans|
    ensures Seen(h.(chans := h.chans[c := ch], vault := Ledger.Touch(h.vault, qid, now)))
         == Seen(h).(chans := h.chans[c := ch], vault := Ledger.Touch(h.vault, qid, now))
  {
  }

  /** The hub consults the tables about qid, and that fails. */
  predicate Faulted(h: Hub, qid: string, o: Oracle) {
    o.existsFails && qid !in h.queues
  }

  /** The queue is cached, but the tables have lost it. */
  predicate Stale(h: Hub, qid: string) {
    ValidQueueID(qid) && qid in h.queues && qid !in h.vault.db.queues
  }

  lemma LookupMatches(h: Hub, qid: string, o: Oracle)
    requires !Stale(h, qid)
    ensures LookupError(h, qid, o) == BoxError(Seen(h), qid, Faulted(h, qid, o))
    ensures LookupError(h, qid, o).None? ==> qid in h.vault.db.queues && Seen(h).boxes[qid] == Cached(h, qid)
  {
  }

  lemma SubMatches(h: Hub, c: Conn, qid: string, now: int, o: Oracle)
    requires Indexed(h) && c < |h.chans| && !Stale(h, qid)
    ensures Known(h, Cached(h, qid).sub)
    ensures SeenOutcome(HandleSub(h, c, qid, now, o)) == Subscribe(Seen(h), c, qid, now, Faulted(h, qid, o), o)
  {
    var e := Cached(h, qid);
    LookupMatches(h, qid, o);
    if LookupError(h, qid, o).Some? {
      SendMatches(h, c, Error(LookupError(h, qid, o).value));
    } else if e.owner == Some(c) {
      SendMatches(h, c, Error(BAD_REQUEST));
    } else {
      TakePlaceMatches(h, c, qid);
      AnswerMatches(TakePlace(h, c, qid), c, qid, now, o);
    }
  }

  lemma TakePlaceMatches(h: Hub, c: Conn, qid: string)
    requires qid in h.vault.db.queues && Known(h, Cached(h, qid).sub)
    ensures Seen(TakePlace(h, c, qid)) == MakeRoom(Seen(h), c, qid)
  {
    var e := Cached(h, qid);
    var kicks := e.sub.Some? && e.sub != Some(c);
    if kicks { KickMatches(h, e.sub.value); }
    var h1 := if kicks then Kick(h, e.sub.value) else h;
    EntryMatches(h1, qid, e.(sub := Some(c)));
  }

  lemma AnswerMatches(h: Hub, c: Conn, qid: string, now: int, o: Oracle)
    requires c < |h.chans|
    ensures SeenOutcome(Answer(h, c, qid, now, o)) == HandOver(Seen(h), c, qid, now, o)
  {
    SendMatches(h, c, SubOk(qid));
    if SendTo(h, c, SubOk(qid)).Alive? {
      var h1 := SendTo(h, c, SubOk(qid)).hub;
      var rows := ReplayRows(h1.vault, qid, o);
      ReplayMatches(h1, qid, Replay(h1.chans[c], qid, rows, o, |rows|), c, now);
    }
  }

  lemma ForwardMatches(h: Hub, c: Conn, sub: Option<Conn>, qid: string, mid: string, payload: Payload, o: Oracle)
    requires c < |h.chans| && Known(h, sub)
    ensures SeenOutcome(Forward(h, c, sub, qid, mid, payload, o)) == PassOn(Seen(h), c, sub, qid, mid, payload, o)
  {
    if sub.Some? { SendMatches(h, sub.value, Deliver(qid, mid, payload)); }
    var out := if sub.Some? then SendTo(h, sub.value, Deliver(qid, mid, payload)) else Alive(h);
    if out.Alive? && Sliceable(mid) {
      SendMatches(Written(out.hub, c, TakesBefore(o, 0)), c, Acked(qid, mid));
    }
  }

  lemma PostMatches(h: Hub, c: Conn, env: Envelope, now: int, o: Oracle)
    requires Indexed(h) && c < |h.chans| && !Stale(h, env.qid)
    ensures Known(h, Cached(h, env.qid).sub)
    ensures SeenOutcome(HandleSend(h, c, env, now, o)) == Post(Seen(h), c, env, now, Faulted(h, env.qid, o), o)
  {
    var qid, mid, e := env.qid, MessageId(env, o), Cached(h, env.qid);
    LookupMatches(h, qid, o);
    if LookupError(h, qid, o).Some? {
      SendMatches(h, c, Error(LookupError(h, qid, o).value));
    } else {
      var h1 := h.(queues := h.queues[qid := e]);
      assert Seen(h1) == Seen(h);
      if Accepts(h, env, o) {
        var h2 := h1.(vault := Ledger.Touch(Ledger.Accept(h.vault, mid, qid, env.payload, now), qid, now));
        assert Seen(h2).boxes == Seen(h).boxes;
        ForwardMatches(h2, c, e.sub, qid, mid, env.payload, o);
      } else {
        SendMatches(h1, c, Error(SERVER_ERROR));
      }
    }
  }

  // ---- stale entries ----

  /** The hub answers a SUB of a stale queue as if it were stored, the tables say 404. */
  lemma SweptCacheIsVisible(h: Hub, c: Conn, qid: string, now: int, o: Oracle)
    requires Indexed(h) && c < |h.chans| && Stale(h, qid)
    ensures Known(h, Cached(h, qid).sub)
    ensures Subscribe(Seen(h), c, qid, now, false, o) == Send(Seen(h), c, Error(QUEUE_NOT_FOUND))
    ensures !Open(h.chans[c]) ==> SeenOutcome(HandleSub(h, c, qid, now, o)) == Down(Left(Seen(h)))
    ensures Open(h.chans[c]) ==>
      && HandleSub(h, c, qid, now, o).Alive?
      && h.chans[c].tried + [if h.queues[qid].owner == Some(c) then Error(BAD_REQUEST) else SubOk(qid)]
         <= HandleSub(h, c, qid, now, o).hub.chans[c].tried
  {
    if Open(h.chans[c]) && h.queues[qid].owner != Some(c) {
      var h1 := TakePlace(h, c, qid);
      var rows := ReplayRows(h1.vault, qid, o);
      assert h1.chans[c] == h.chans[c];
      ReplayExtends(Push(h.chans[c], SubOk(qid)), qid, rows, o, |rows|);
    }
  }

  lemma {:induction false} ReplayExtends(ch: Chan, qid: string, rows: seq<Tables.Row>, o: Oracle, n: nat)
    requires n <= |rows|
    ensures ch.tried <= Replay(ch, qid, rows, o, n).tried
  {
    if n > 0 { ReplayExtends(ch, qid, rows, o, n - 1); }
  }

  /** A SEND to a stale queue stores nothing and delivers nothing: the foreign key refuses
      it, and its sender reads 500, not 404. */
  lemma SweptQueueRefusesSends(h: Hub, c: Conn, env: Envelope, now: int, o: Oracle)
    requires Indexed(h) && c < |h.chans| && env.kind == SEND && Stale(h, env.qid)
    ensures Handle(h, c, env, now, o) == SendTo(h, c, Error(SERVER_ERROR))
    ensures Post(Seen(h), c, env, now, false, o) == Send(Seen(h), c, Error(QUEUE_NOT_FOUND))
  {
    assert h.queues[env.qid := h.queues[env.qid]] == h.queues;
  }

  // ---- commands ----

  /** A SUB or SEND of a stale queue, over a connection that can be answered. */
  predicate Betrays(h: Hub, c: Conn, m: Message)
    requires c < |h.chans|
  {
    && Open(h.chans[c]) && Parse(m).Some?
    && var env := Parse(m).value; (env.kind == SUB || env.kind == SEND) && Stale(h, env.qid)
  }

  function FaultOf(h: Hub, m: Message, o: Oracle): bool {
    Parse(m).Some? && Faulted(h, Parse(m).value.qid, o)
  }

  /** A command is answered, delivered, stored, or crashes as in the office, exactly unless
      it asks for a stale queue. */
  lemma CommandMatches(h: Hub, c: Conn, m: Message, now: int, o: Oracle)
    requires Indexed(h) && c < |h.chans|
    ensures OfficeIndexed(Seen(h))
    ensures SeenOutcome(Read(h, c, m, now, o)) == Attend(Seen(h), c, m, now, FaultOf(h, m, o), o)
       <==> !Betrays(h, c, m)
  {
    SeenIsIndexed(h);
    if Parse(m).Some? {
      var env := Parse(m).value;
      match env.kind
      case NEW => NewMatches(h, c, env, now, o);
      case SUB => SubMatchesUnless(h, c, env.qid, now, o);
      case SEND => PostMatchesUnless(h, c, env, now, o);
      case _ =>
    }
  }

  lemma SubMatchesUnless(h: Hub, c: Conn, qid: string, now: int, o: Oracle)
    requires Indexed(h) && c < |h.chans|
    ensures Known(h, Cached(h, qid).sub) && (qid in Seen(h).boxes ==> Listed(Seen(h), Seen(h).boxes[qid].sub))
    ensures SeenOutcome(HandleSub(h, c, qid, now, o)) == Subscribe(Seen(h), c, qid, now, Faulted(h, qid, o), o)
       <==> !(Open(h.chans[c]) && Stale(h, qid))
  {
    if Stale(h, qid) {
      SweptCacheIsVisible(h, c, qid, now, o);
      SendMatches(h, c, Error(QUEUE_NOT_FOUND));
      if Open(h.chans[c]) {
        var t, t' := h.chans[c].tried, HandleSub(h, c, qid, now, o).hub.chans[c].tried;
        assert t'[|t|] != Error(QUEUE_NOT_FOUND);
        assert Subscribe(Seen(h), c, qid, now, false, o).office.chans[c].tried[|t|] == Error(QUEUE_NOT_FOUND);
      }
    } else {
      SubMatches(h, c, qid, now, o);
    }
  }

  lemma SendsDiffer(x: Office, c: Conn, f: Frame, g: Frame)
    requires c < |x.chans| && f != g
    ensures Send(x, c, f) == Send(x, c, g) <==> !Open(x.chans[c])
  {
    if Open(x.chans[c]) {
      var t := x.chans[c].tried;
      assert Send(x, c, f).office.chans[c].tried[|t|] == f && Send(x, c, g).office.chans[c].tried[|t|] == g;
    }
  }

  lemma PostMatchesUnless(h: Hub, c: Conn, env: Envelope, now: int, o: Oracle)
    requires Indexed(h) && c < |h.chans| && env.kind == SEND
    ensures Known(h, Cached(h, env.qid).sub)
    ensures env.qid in Seen(h).boxes ==> Listed(Seen(h), Seen(h).boxes[env.qid].sub)
    ensures SeenOutcome(HandleSend(h, c, env, now, o)) == Post(Seen(h), c, env, now, Faulted(h, env.qid, o), o)
       <==> !(Open(h.chans[c]) && Stale(h, env.qid))
  {
    if Stale(h, env.qid) {
      SweptQueueRefusesSends(h, c, env, now, o);
      SendMatches(h, c, Error(SERVER_ERROR));
      SendsDiffer(Seen(h), c, Error(SERVER_ERROR), Error(QUEUE_NOT_FOUND));
      assert HandleSend(h, c, env, now, o) == SendTo(h, c, Error(SERVER_ERROR));
    } else {
      PostMatches(h, c, env, now, o);
    }
  }

  // ---- the process ----

  datatype Branch = Branch(office: Office, readers: set<Conn>, birth: Conn, now: int, sweeper: Sweeper)

  function SeenProcess(p: Process): Branch {
    Branch(Seen(p.hub), p.readers, p.birth, p.now, p.sweeper)
  }

  /** Every connection is gone: all boxes are kept, nobody holds a role. */
  function Reopened(b: Branch, r: Remains): Branch {
    Branch(Office(r.vault, {}, map q | q in r.vault.db.queues :: NOBODY, r.chans), {}, |r.chans|, b.now, Idle)
  }

  function Leave(x: Office, c: Conn): Office
    requires c < |x.chans|
  {
    if c in x.clients then
      x.(clients := x.clients - {c}, chans := x.chans[c := Close(x.chans[c])],
         boxes := map q | q in x.boxes :: Drop(x.boxes[q], c))
    else x
  }

  /** What is left after each durable statement and each send of a command. */
  function OfficeStages(x: Office, c: Conn, env: Envelope, now: int, fails: bool, o: Oracle): (rs: seq<Remains>)
    requires OfficeIndexed(x) && c < |x.chans|
    ensures |rs| > 0
  {
    OfficeBetween(x, c, env, now, fails, o)
    + [match Attend(x, c, Wire(env), now, fails, o) case Running(x') => Left(x') case Down(r) => r]
  }

  function OfficeBetween(x: Office, c: Conn, env: Envelope, now: int, fails: bool, o: Oracle): (rs: seq<Remains>)
    requires OfficeIndexed(x) && c < |x.chans|
    ensures |rs| > 0 && rs[0] == Left(x)
  {
    match env.kind
    case NEW =>
      if env.qid != "" || o.idFails || o.writeFails then [Left(x)]
      else
        var created := x.(vault := Ledger.Create(x.vault, o.newId, now));
        [Left(x), Left(created), Left(created.(vault := Ledger.Touch(created.vault, o.newId, now)))]
    case SUB =>
      if BoxError(x, env.qid, fails).Some? || x.boxes[env.qid].owner == Some(c) then [Left(x)]
      else [Left(x)] + HandingOver(MakeRoom(x, c, env.qid), c, env.qid, o)
    case SEND =>
      var qid, mid := env.qid, MessageId(env, o);
      if BoxError(x, qid, fails).Some? || o.writeFails || !Ledger.MayAccept(x.vault, mid, qid) then [Left(x)]
      else
        var saved := x.(vault := Ledger.Accept(x.vault, mid, qid, env.payload, now));
        var touched := saved.(vault := Ledger.Touch(saved.vault, qid, now));
        [Left(x), Left(saved), Left(touched)] + PassingOn(touched, x.boxes[qid].sub, qid, mid, env.payload)
    case _ => [Left(x)]
  }

  function HandingOver(x: Office, c: Conn, qid: string, o: Oracle): seq<Remains>
    requires c < |x.chans|
  {
    if !Open(x.chans[c]) then [Left(x)]
    else
      var rows := ReplayRows(x.vault, qid, o);
      [Left(x)] + seq(|rows| + 1, n requires 0 <= n <= |rows| => HandedOver(x, c, qid, o, n))
  }

  function HandedOver(x: Office, c: Conn, qid: string, o: Oracle, n: nat): Remains
    requires c < |x.chans| && n <= |ReplayRows(x.vault, qid, o)|
  {
    var rows := ReplayRows(x.vault, qid, o);
    Left(x.(chans := x.chans[c := Replay(Push(x.chans[c], SubOk(qid)), qid, rows, o, n)]))
  }

  function PassingOn(x: Office, sub: Option<Conn>, qid: string, mid: string, payload: Payload): seq<Remains>
    requires Listed(x, sub)
  {
    if sub.None? then []
    else
      match Send(x, sub.value, Deliver(qid, mid, payload))
      case Running(x') => [Left(x')]
      case Down(r) => [r]
  }

  /** The stage, or the last one when there are fewer. */
  function AtStage(rs: seq<Remains>, stage: nat): Remains
    requires |rs| > 0
  {
    rs[if stage < |rs| then stage else |rs| - 1]
  }

  ghost predicate Attends(b: Branch, s: Step) {
    && OfficeIndexed(b.office)
    && match s
       case Connect => true
       case Incoming(c, m, o) => c in b.readers && c < |b.office.chans| && WellDrawn(o)
       case Disconnect(c) => c in b.readers && c < |b.office.chans|
       case Pop(c) => c < |b.office.chans|
       case SweepMessages(at) => b.sweeper.Idle? && at <= b.now
       case SweepQueues => b.sweeper.MessagesDone?
       case SweepResidue => b.sweeper.QueuesDone?
       case SweepFails => !b.sweeper.Idle?
       case Tick(to) => to >= b.now
       case Restart => true
       case Die(c, env, o, stage) => c in b.readers && c < |b.office.chans| && WellDrawn(o)
  }

  function Do(b: Branch, s: Step, fails: bool): Branch
    requires Attends(b, s)
  {
    var x := b.office;
    match s
    case Connect =>
      b.(office := x.(clients := x.clients + {|x.chans|}, chans := x.chans + [NEW_CHAN]),
         readers := b.readers + {|x.chans|})
    case Incoming(c, m, o) =>
      (match Attend(x, c, m, b.now, fails, o)
       case Running(x') => b.(office := x')
       case Down(r) => Reopened(b, r))
    case Disconnect(c) => b.(office := Leave(x, c), readers := b.readers - {c})
    case Pop(c) => b.(office := x.(chans := x.chans[c := Take(x.chans[c], 1)]))
    case SweepMessages(at) =>
      b.(office := x.(vault := Ledger.ExpireMessages(x.vault, at - QUEUE_TTL)), sweeper := MessagesDone(at))
    case SweepQueues =>
      if Tables.MaySweepQueues(x.vault.db, b.sweeper.at - QUEUE_TTL) then
        var vault := Ledger.ExpireQueues(x.vault, b.sweeper.at - QUEUE_TTL);
        b.(office := x.(vault := vault, boxes := map q | q in x.boxes && q in vault.db.queues :: x.boxes[q]),
           sweeper := QueuesDone(b.sweeper.at))
      else b.(sweeper := Idle)
    case SweepResidue =>
      b.(office := x.(vault := Ledger.ExpireResidue(x.vault, b.sweeper.at - ACK_GRACE)), sweeper := Idle)
    case SweepFails => b.(sweeper := Idle)
    case Tick(to) => b.(now := to)
    case Restart => Reopened(b, Left(x))
    case Die(c, env, o, stage) => Reopened(b, AtStage(OfficeStages(x, c, env, b.now, fails, o), stage))
  }

  /** The office takes the steps of ss; fs says in which of them its lookup fails. */
  ghost predicate Does(b: Branch, ss: seq<Step>, fs: seq<bool>, b': Branch)
    requires |ss| == |fs|
    decreases ss
  {
    if ss == [] then b' == b else Attends(b, ss[0]) && Does(Do(b, ss[0], fs[0]), ss[1..], fs[1..], b')
  }

  /** Whether the hub's lookup fails in step s. */
  function Fault(p: Process, s: Step): bool {
    match s
    case Incoming(_, m, o) => FaultOf(p.hub, m, o)
    case Die(_, env, o, _) => Faulted(p.hub, env.qid, o)
    case _ => false
  }

  /** A stale queue is asked for, over a connection that can be answered; the process may
      only end before that to hide it. */
  predicate Visible(p: Process, s: Step) {
    match s
    case Incoming(c, m, _) => c < |p.hub.chans| && Betrays(p.hub, c, m)
    case Die(c, env, _, stage) => c < |p.hub.chans| && Betrays(p.hub, c, Wire(env)) && stage > 0
    case _ => false
  }

  lemma LeaveMatches(h: Hub, c: Conn)
    requires c < |h.chans|
    ensures Seen(Unregister(h, c)) == Leave(Seen(h), c)
  {
    if c in h.clients {
      var h' := Unregister(h, c);
      forall q | q in h.vault.db.queues ensures Cached(h', q) == Drop(Cached(h, q), c) {
      }
      assert Seen(h').boxes == Leave(Seen(h), c).boxes;
    }
  }

  lemma IncomingMatches(p: Process, c: Conn, m: Message, o: Oracle)
    requires Enabled(p, Incoming(c, m, o))
    ensures OfficeIndexed(Seen(p.hub))
    ensures SeenProcess(Apply(p, Incoming(c, m, o))) == Do(SeenProcess(p), Incoming(c, m, o), FaultOf(p.hub, m, o))
       <==> !Betrays(p.hub, c, m)
  {
    CommandMatches(p.hub, c, m, p.now, o);
    var out := Read(p.hub, c, m, p.now, o);
    if out.Crashed? { RebootMatches(p, out.hub); }
    if Betrays(p.hub, c, m) { BetrayalIsSurvived(p.hub, c, m, p.now, o); }
  }

  lemma BetrayalIsSurvived(h: Hub, c: Conn, m: Message, now: int, o: Oracle)
    requires Indexed(h) && c < |h.chans| && Betrays(h, c, m)
    ensures OfficeIndexed(Seen(h))
    ensures var x := Attend(Seen(h), c, m, now, FaultOf(h, m, o), o);
      && Read(h, c, m, now, o).Alive?
      && x == Running(Seen(h).(chans := h.chans[c := Push(h.chans[c], Error(QUEUE_NOT_FOUND))]))
  {
    SeenIsIndexed(h);
    var env := Parse(m).value;
    if env.kind == SUB {
      SweptCacheIsVisible(h, c, env.qid, now, o);
    } else {
      SweptQueueRefusesSends(h, c, env, now, o);
    }
  }

  lemma RebootMatches(p: Process, g: Hub)
    ensures SeenProcess(Rebooted(p, g)) == Reopened(SeenProcess(p), Left(Seen(g)))
  {
  }

  // ---- dying ----

  lemma LastStageMatches(h: Hub, c: Conn, env: Envelope, now: int, o: Oracle)
    requires Indexed(h) && c < |h.chans| && !Betrays(h, c, Wire(env))
    ensures OfficeIndexed(Seen(h))
    ensures var fails := Faulted(h, env.qid, o);
      var rs := OfficeStages(Seen(h), c, env, now, fails, o);
      rs[|rs| - 1] == Left(Seen(Read(h, c, Wire(env), now, o).hub))
  {
    CommandMatches(h, c, Wire(env), now, o);
  }

  /** Up to the last stage, unless the queue is stale. */
  lemma BetweenMatches(h: Hub, c: Conn, env: Envelope, now: int, o: Oracle)
    requires Indexed(h) && c < |h.chans| && ((env.kind == SUB || env.kind == SEND) ==> !Stale(h, env.qid))
    ensures OfficeIndexed(Seen(h))
    ensures var hs, rs := Between(h, c, env, now, o), OfficeBetween(Seen(h), c, env, now, Faulted(h, env.qid, o), o);
      |hs| == |rs| && forall i :: 0 <= i < |hs| ==> Left(Seen(hs[i])) == rs[i]
  {
    SeenIsIndexed(h);
    match env.kind
    case SUB => SubBetweenMatches(h, c, env, now, o);
    case SEND => SendBetweenMatches(h, c, env, now, o);
    case _ =>
  }

  lemma SubBetweenMatches(h: Hub, c: Conn, env: Envelope, now: int, o: Oracle)
    requires Indexed(h) && OfficeIndexed(Seen(h)) && c < |h.chans| && env.kind == SUB && !Stale(h, env.qid)
    ensures var hs, rs := Between(h, c, env, now, o), OfficeBetween(Seen(h), c, env, now, Faulted(h, env.qid, o), o);
      |hs| == |rs| && forall i :: 0 <= i < |hs| ==> Left(Seen(hs[i])) == rs[i]
  {
    LookupMatches(h, env.qid, o);
    if !Refuses(h, c, env.qid, o) {
      var hs, rs := Between(h, c, env, now, o), OfficeBetween(Seen(h), c, env, now, Faulted(h, env.qid, o), o);
      var h1 := TakePlace(h, c, env.qid);
      TakePlaceMatches(h, c, env.qid);
      AnsweringMatches(h1, c, env.qid, o);
      forall i | 0 < i < |hs| ensures Left(Seen(hs[i])) == rs[i] {
        assert hs[i] == Answering(h1, c, env.qid, o)[i - 1] && rs[i] == HandingOver(Seen(h1), c, env.qid, o)[i - 1];
      }
    }
  }

  lemma SendBetweenMatches(h: Hub, c: Conn, env: Envelope, now: int, o: Oracle)
    requires Indexed(h) && OfficeIndexed(Seen(h)) && c < |h.chans| && env.kind == SEND && !Stale(h, env.qid)
    ensures var hs, rs := Between(h, c, env, now, o), OfficeBetween(Seen(h), c, env, now, Faulted(h, env.qid, o), o);
      |hs| == |rs| && forall i :: 0 <= i < |hs| ==> Left(Seen(hs[i])) == rs[i]
  {
    LookupMatches(h, env.qid, o);
  }

  lemma AnsweringMatches(h: Hub, c: Conn, qid: string, o: Oracle)
    requires c < |h.chans|
    ensures var hs, rs := Answering(h, c, qid, o), HandingOver(Seen(h), c, qid, o);
      |hs| == |rs| && forall i :: 0 <= i < |hs| ==> Left(Seen(hs[i])) == rs[i]
  {
    var hs, rs := Answering(h, c, qid, o), HandingOver(Seen(h), c, qid, o);
    forall i | 0 <= i < |hs| ensures Left(Seen(hs[i])) == rs[i] {
      if i > 0 { AnsweredMatches(h, c, qid, o, i - 1); }
    }
  }

  lemma AnsweredMatches(h: Hub, c: Conn, qid: string, o: Oracle, n: nat)
    requires c < |h.chans| && n <= |ReplayRows(h.vault, qid, o)|
    ensures Left(Seen(Answered(h, c, qid, o, n))) == HandedOver(Seen(h), c, qid, o, n)
  {
  }

  /** Dying while a stale queue is asked for, over a closed connection: nothing was sent. */
  lemma UnheardStages(h: Hub, c: Conn, env: Envelope, now: int, o: Oracle, i: nat)
    requires Indexed(h) && c < |h.chans| && !Open(h.chans[c]) && (env.kind == SUB || env.kind == SEND)
    requires Stale(h, env.qid)
    requires i < |Stages(h, c, env, now, o)|
    ensures Left(Seen(Stages(h, c, env, now, o)[i])) == Left(Seen(h))
  {
    var g := Stages(h, c, env, now, o)[i];
    if env.kind == SEND { SweptQueueRefusesSends(h, c, env, now, o); }
    assert g.vault == h.vault;
    assert Ended(g.chans) == Ended(h.chans);
  }

  /** c was told something else than 404, or nothing yet. */
  ghost predicate Otherwise(h: Hub, c: Conn, g: Hub)
    requires c < |h.chans|
  {
    |g.chans| == |h.chans| && g.chans[c].tried != h.chans[c].tried + [Error(QUEUE_NOT_FOUND)]
  }

  /** Over an open one. */
  lemma BetrayedStages(h: Hub, c: Conn, env: Envelope, now: int, o: Oracle, i: nat)
    requires Indexed(h) && c < |h.chans| && Betrays(h, c, Wire(env)) && 0 < i < |Stages(h, c, env, now, o)|
    ensures Otherwise(h, c, Stages(h, c, env, now, o)[i])
  {
    if env.kind == SEND {
      BetrayedSend(h, c, env, now, o, i);
    } else if i == |Between(h, c, env, now, o)| {
      BetrayedSub(h, c, env.qid, now, o);
    } else {
      BetrayedSubStage(h, c, env, now, o, i);
    }
  }

  lemma BetrayedSubStage(h: Hub, c: Conn, env: Envelope, now: int, o: Oracle, i: nat)
    requires c < |h.chans| && Known(h, Cached(h, env.qid).sub) && Open(h.chans[c]) && env.kind == SUB
    requires 0 < i < |Between(h, c, env, now, o)|
    ensures Otherwise(h, c, Between(h, c, env, now, o)[i])
  {
    var h1 := TakePlace(h, c, env.qid);
    UntoldPlace(h, c, env.qid);
    SubBetweenAt(h, c, env, now, o, i);
    if i >= 2 { BetrayedAnswer(h, c, h1, env.qid, o, i - 2, Between(h, c, env, now, o)[i]); }
  }

  lemma BetrayedSend(h: Hub, c: Conn, env: Envelope, now: int, o: Oracle, i: nat)
    requires Indexed(h) && c < |h.chans| && Open(h.chans[c]) && env.kind == SEND && Stale(h, env.qid)
    requires 0 < i < |Stages(h, c, env, now, o)|
    ensures Otherwise(h, c, Stages(h, c, env, now, o)[i])
  {
    var t := h.chans[c].tried;
    SweptQueueRefusesSends(h, c, env, now, o);
    assert Stages(h, c, env, now, o)[i] == SendTo(h, c, Error(SERVER_ERROR)).hub;
    assert (t + [Error(SERVER_ERROR)])[|t|] != (t + [Error(QUEUE_NOT_FOUND)])[|t|];
  }

  lemma BetrayedSub(h: Hub, c: Conn, qid: string, now: int, o: Oracle)
    requires Indexed(h) && c < |h.chans| && Open(h.chans[c]) && Stale(h, qid)
    ensures Known(h, Cached(h, qid).sub)
    ensures Otherwise(h, c, HandleSub(h, c, qid, now, o).hub)
  {
    var t := h.chans[c].tried;
    SweptCacheIsVisible(h, c, qid, now, o);
    assert HandleSub(h, c, qid, now, o).hub.chans[c].tried[|t|] != (t + [Error(QUEUE_NOT_FOUND)])[|t|];
  }

  /** Whoever takes a place is not the one kicked. */
  lemma UntoldPlace(h: Hub, c: Conn, qid: string)
    requires c < |h.chans| && Known(h, Cached(h, qid).sub)
    ensures |TakePlace(h, c, qid).chans| == |h.chans| && TakePlace(h, c, qid).chans[c] == h.chans[c]
    ensures Otherwise(h, c, TakePlace(h, c, qid))
  {
  }

  lemma BetrayedAnswer(h: Hub, c: Conn, h1: Hub, qid: string, o: Oracle, n: nat, g: Hub)
    requires c < |h.chans| == |h1.chans| && Open(h.chans[c]) && h1.chans[c] == h.chans[c]
    requires n <= |ReplayRows(h1.vault, qid, o)| && g == Answered(h1, c, qid, o, n)
    ensures Otherwise(h, c, g)
  {
    var t := h.chans[c].tried;
    ReplayExtends(Push(h1.chans[c], SubOk(qid)), qid, ReplayRows(h1.vault, qid, o), o, n);
    assert g.chans[c].tried[|t|] == SubOk(qid);
  }

  lemma StagesMatch(h: Hub, c: Conn, env: Envelope, now: int, o: Oracle, stage: nat)
    requires Indexed(h) && c < |h.chans| && stage < |Stages(h, c, env, now, o)|
    ensures OfficeIndexed(Seen(h))
    ensures AtStage(OfficeStages(Seen(h), c, env, now, Faulted(h, env.qid, o), o), stage)
         == Left(Seen(Stages(h, c, env, now, o)[stage]))
       <==> !(Betrays(h, c, Wire(env)) && stage > 0)
  {
    SeenIsIndexed(h);
    if (env.kind == SUB || env.kind == SEND) && Stale(h, env.qid) {
      StaleStagesMatch(h, c, env, now, o, stage);
    } else {
      BetweenMatches(h, c, env, now, o);
      LastStageMatches(h, c, env, now, o);
    }
  }

  lemma StaleStagesMatch(h: Hub, c: Conn, env: Envelope, now: int, o: Oracle, stage: nat)
    requires Indexed(h) && OfficeIndexed(Seen(h)) && c < |h.chans| && stage < |Stages(h, c, env, now, o)|
    requires (env.kind == SUB || env.kind == SEND) && Stale(h, env.qid)
    ensures AtStage(OfficeStages(Seen(h), c, env, now, Faulted(h, env.qid, o), o), stage)
         == Left(Seen(Stages(h, c, env, now, o)[stage]))
       <==> !(Open(h.chans[c]) && stage > 0)
  {
    var rs := OfficeStages(Seen(h), c, env, now, Faulted(h, env.qid, o), o);
    assert OfficeBetween(Seen(h), c, env, now, Faulted(h, env.qid, o), o) == [Left(Seen(h))];
    if !Open(h.chans[c]) {
      UnheardStages(h, c, env, now, o, stage);
      LastStageMatches(h, c, env, now, o);
      UnheardStages(h, c, env, now, o, |Stages(h, c, env, now, o)| - 1);
    } else if stage > 0 {
      BetrayalIsSurvived(h, c, Wire(env), now, o);
      BetrayedStages(h, c, env, now, o, stage);
      assert rs[1].chans[c].tried == h.chans[c].tried + [Error(QUEUE_NOT_FOUND)];
    }
  }

  lemma DeathMatches(p: Process, c: Conn, env: Envelope, o: Oracle, stage: nat)
    requires Enabled(p, Die(c, env, o, stage))
    ensures OfficeIndexed(Seen(p.hub))
    ensures SeenProcess(Apply(p, Die(c, env, o, stage)))
         == Do(SeenProcess(p), Die(c, env, o, stage), Faulted(p.hub, env.qid, o))
       <==> !Visible(p, Die(c, env, o, stage))
  {
    SeenIsIndexed(p.hub);
    StagesMatch(p.hub, c, env, p.now, o, stage);
    var g, r := Stages(p.hub, c, env, p.now, o)[stage],
      AtStage(OfficeStages(Seen(p.hub), c, env, p.now, Faulted(p.hub, env.qid, o), o), stage);
    RebootMatches(p, g);
    assert Reopened(SeenProcess(p), r).office.vault == r.vault && Reopened(SeenProcess(p), r).office.chans == r.chans;
    assert Reopened(SeenProcess(p), Left(Seen(g))).office.chans == Left(Seen(g)).chans;
  }

  // ---- steps ----

  lemma SweepMatches(p: Process)
    requires Enabled(p, SweepQueues)
    ensures OfficeIndexed(Seen(p.hub))
    ensures SeenProcess(Apply(p, SweepQueues)) == Do(SeenProcess(p), SweepQueues, false)
  {
    SeenIsIndexed(p.hub);
    assert Seen(Apply(p, SweepQueues).hub).boxes == Do(SeenProcess(p), SweepQueues, false).office.boxes;
  }

  lemma ConnectMatches(p: Process)
    requires Enabled(p, Connect)
    ensures OfficeIndexed(Seen(p.hub))
    ensures SeenProcess(Apply(p, Connect)) == Do(SeenProcess(p), Connect, false)
  {
    SeenIsIndexed(p.hub);
  }

  lemma QuietMatches(p: Process, s: Step)
    requires Enabled(p, s) && !s.Incoming? && !s.Die?
    ensures Attends(SeenProcess(p), s)
    ensures SeenProcess(Apply(p, s)) == Do(SeenProcess(p), s, Fault(p, s))
  {
    SeenIsIndexed(p.hub);
    match s
    case Connect => ConnectMatches(p);
    case Disconnect(c) => LeaveMatches(p.hub, c);
    case Restart => RebootMatches(p, p.hub);
    case SweepQueues => SweepMatches(p);
    case _ =>
  }

  /** One step of the hub is the same step of the office: the same channels, tables and
      connections. Evicting and reviving entries is invisible, and so is a sweep; only a
      SUB or SEND of a queue that is cached but no longer stored is not. */
  lemma StepMatches(p: Process, s: Step)
    requires Enabled(p, s)
    ensures Attends(SeenProcess(p), s)
    ensures SeenProcess(Apply(p, s)) == Do(SeenProcess(p), s, Fault(p, s)) <==> !Visible(p, s)
  {
    SeenIsIndexed(p.hub);
    match s
    case Incoming(c, m, o) => IncomingMatches(p, c, m, o);
    case Die(c, env, o, stage) => DeathMatches(p, c, env, o, stage);
    case _ => QuietMatches(p, s);
  }

  // ---- runs ----

  ghost predicate RunsUnseen(p: Process, ss: seq<Step>, p': Process)
    decreases ss
  {
    if ss == [] then p' == p
    else Enabled(p, ss[0]) && !Visible(p, ss[0]) && RunsUnseen(Apply(p, ss[0]), ss[1..], p')
  }

  /** A lookup of the office fails only in a step that lets lookups fail. */
  predicate Excused(ss: seq<Step>, fs: seq<bool>) {
    && |ss| == |fs|
    && forall i :: 0 <= i < |ss| && fs[i] ==> (ss[i].Incoming? || ss[i].Die?) && ss[i].o.existsFails
  }

  lemma {:induction false} RunMatches(p: Process, ss: seq<Step>, p': Process) returns (fs: seq<bool>)
    requires RunsUnseen(p, ss, p')
    ensures Excused(ss, fs) && Does(SeenProcess(p), ss, fs, SeenProcess(p'))
    decreases ss
  {
    if ss == [] {
      fs := [];
    } else {
      StepMatches(p, ss[0]);
      var rest := RunMatches(Apply(p, ss[0]), ss[1..], p');
      fs := [Fault(p, ss[0])] + rest;
      assert fs[1..] == rest;
    }
  }

  /** The cache is invisible: after any run in which nobody asked for a stale queue the
      office, fed the same steps, has sent the same frames on every channel and stored the
      same rows. */
  lemma CacheIsInvisible(ss: seq<Step>, p: Process)
    requires RunsUnseen(START, ss, p)
    ensures exists fs, b :: (Excused(ss, fs) && Does(SeenProcess(START), ss, fs, b)
      && b.office.chans == p.hub.chans && b.office.vault == p.hub.vault)
  {
    var fs := RunMatches(START, ss, p);
    assert Does(SeenProcess(START), ss, fs, SeenProcess(p)) && SeenProcess(p).office.chans == p.hub.chans;
  }

  // ---- when no entry is stale ----

  ghost predicate CacheSound(h: Hub) {
    forall q :: q in h.queues ==> q in h.vault.db.queues
  }

  /** No sweep removes a queue the hub has cached. */
  ghost predicate Gentle(p: Process, s: Step) {
    s.SweepQueues? && p.sweeper.MessagesDone? ==>
      forall q :: q in p.hub.queues && q in p.hub.vault.db.queues ==>
        !Tables.Expired(p.hub.vault.db.queues[q], p.sweeper.at - QUEUE_TTL)
  }

  ghost predicate RunsGently(p: Process, ss: seq<Step>, p': Process)
    decreases ss
  {
    if ss == [] then p' == p
    else Enabled(p, ss[0]) && Gentle(p, ss[0]) && RunsGently(Apply(p, ss[0]), ss[1..], p')
  }

  lemma CommandKeepsCacheSound(h: Hub, c: Conn, m: Message, now: int, o: Oracle)
    requires Indexed(h) && c < |h.chans| && CacheSound(h)
    ensures Read(h, c, m, now, o).Alive? ==> CacheSound(Read(h, c, m, now, o).hub)
  {
    if Parse(m).Some? {
      var env := Parse(m).value;
      match env.kind
      case SUB => SubKeepsCacheSound(h, c, env.qid, now, o);
      case SEND => PostKeepsCacheSound(h, c, env, now, o);
      case _ =>
    }
  }

  lemma SubKeepsCacheSound(h: Hub, c: Conn, qid: string, now: int, o: Oracle)
    requires Indexed(h) && CacheSound(h) && c < |h.chans|
    ensures Known(h, Cached(h, qid).sub)
    ensures HandleSub(h, c, qid, now, o).Alive? ==> CacheSound(HandleSub(h, c, qid, now, o).hub)
  {
  }

  lemma PostKeepsCacheSound(h: Hub, c: Conn, env: Envelope, now: int, o: Oracle)
    requires Indexed(h) && CacheSound(h) && c < |h.chans|
    ensures Known(h, Cached(h, env.qid).sub)
    ensures HandleSend(h, c, env, now, o).Alive? ==> CacheSound(HandleSend(h, c, env, now, o).hub)
  {
  }

  lemma StepKeepsCacheSound(p: Process, s: Step)
    requires Enabled(p, s) && Gentle(p, s) && CacheSound(p.hub)
    ensures CacheSound(Apply(p, s).hub) && !Visible(p, s)
  {
    match s
    case Incoming(c, m, o) => CommandKeepsCacheSound(p.hub, c, m, p.now, o);
    case _ =>
  }

  /** As long as no sweep removes a cached queue, nobody can ask for a stale one: the cache
      is invisible in every such run. */
  lemma {:induction false} GentleRunsAreUnseen(p: Process, ss: seq<Step>, p': Process)
    requires CacheSound(p.hub) && RunsGently(p, ss, p')
    ensures RunsUnseen(p, ss, p') && CacheSound(p'.hub)
    decreases ss
  {
    if ss != [] {
      StepKeepsCacheSound(p, ss[0]);
      GentleRunsAreUnseen(Apply(p, ss[0]), ss[1..], p');
    }
  }
}
