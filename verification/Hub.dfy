/** server/hub.go in its own form: one object whose two tables are updated in place. View()
    is its abstract value, and every operation is proved equal to the function of Relay
    that the invariants and the guarantees are about. */
module HubClass {
  import opened Ids
  import opened Frames
  import opened Channel
  import opened ClientClass
  import opened StoreClass
  import Ledger
  import Relay
  import Tables
  import Steps
  import Invariants
  import Replies

  class QueueState {
    var owner: Client?
    var sub: Client?

    constructor (owner: Client?)
      ensures this.owner == owner && sub == null
    {
      this.owner, sub := owner, null;
    }

    ghost function Entry(): Relay.Entry
      reads this
    {
      Relay.Entry(Role(owner), Role(sub))
    }
  }

  function Role(c: Client?): Option<nat> {
    if c == null then None else Some(c.id)
  }

  /** SUB may be read as reviving the entry first. */
  lemma ReviveFirst(h: Relay.Hub, c: nat, qid: string, now: int, o: Relay.Oracle)
    requires Relay.Indexed(h) && c < |h.chans| && Relay.LookupError(h, qid, o).None?
    ensures var e := Relay.Cached(h, qid); var h1 := h.(queues := h.queues[qid := e]);
      Relay.HandleSub(h, c, qid, now, o)
      == if e.owner == Some(c) then Relay.SendTo(h1, c, Error(BAD_REQUEST))
         else Relay.Answer(Relay.TakePlace(h1, c, qid), c, qid, now, o)
  {
    var e := Relay.Cached(h, qid);
    assert h.queues[qid := e][qid := e.(sub := Some(c))] == h.queues[qid := e.(sub := Some(c))];
    assert qid in h.queues ==> h.queues[qid := e] == h.queues;
  }

  ghost function Table(queues: map<string, QueueState>): map<string, Relay.Entry>
    reads queues.Values
  {
    map q | q in queues :: queues[q].Entry()
  }

  ghost function Channels(all: seq<Client>): (chans: seq<Chan>)
    reads all
    ensures |chans| == |all|
  {
    seq(|all|, i requires 0 <= i < |all| reads all => all[i].chan)
  }

  lemma ChannelsOf(all: seq<Client>, c: Client)
    ensures Channels(all + [c]) == Channels(all) + [c.chan]
  {
  }

  class Hub {
    const store: Store
    var clients: set<Client>
    var queues: map<string, QueueState>
    /** Every connection ever registered, by number, and how those that are gone left. */
    ghost var all: seq<Client>
    ghost var kicked: set<nat>
    ghost var left: set<nat>

    ghost predicate Member(c: Client?)
      reads this
    {
      c != null ==> c.id < |all| && all[c.id] == c
    }

    ghost predicate Valid()
      reads this, store, all, queues.Values
    {
      && store.Valid()
      && (forall i :: 0 <= i < |all| ==> all[i].Valid() && all[i].id == i)
      && (forall c :: c in clients ==> Member(c))
      && ValidTable()
    }

    /** Entries mention registered connections only, and are never shared. */
    ghost predicate ValidTable()
      reads this, queues.Values
    {
      && (forall q :: q in queues ==> Member(queues[q].owner) && Member(queues[q].sub))
      && (forall p, q :: p in queues && q in queues && p != q ==> queues[p] != queues[q])
    }

    ghost function View(): (h: Relay.Hub)
      requires Valid()
      reads this, store, all, queues.Values
      ensures Relay.Indexed(h) && |h.chans| == |all|
    {
      Relay.Hub(store.book, set c | c in clients :: c.id, Table(queues), Channels(all), kicked, left)
    }

    /** The process panicked or lives on, in the state the model says. */
    ghost predicate Ends(crashed: bool, outcome: Relay.Outcome)
      reads this, store, all, queues.Values
    {
      Valid() && View() == outcome.hub && crashed == outcome.Crashed?
    }

    /** A server starts, or restarts, with the tables alone. past: the connections of
        earlier processes, which keep their numbers. */
    constructor (store: Store, ghost past: seq<Client>)
      requires store.Valid() && forall i :: 0 <= i < |past| ==> past[i].Valid() && past[i].id == i
      ensures Valid() && this.store == store && all == past
      ensures View() == Relay.Hub(store.book, {}, map[], Channels(past), {}, {})
    {
      this.store := store;
      clients, queues := {}, map[];
      all, kicked, left := past, {}, {};
    }

    // ---- connections ----

    method Register(c: Client)
      requires Valid() && c.Valid() && c.chan == NEW_CHAN && c.id == |all|
      modifies this`clients, this`all
      ensures Valid() && View() == Relay.Register(old(View())) && all == old(all) + [c]
    {
      ghost var h := View();
      all := all + [c];
      ChannelsOf(old(all), c);
      assert Valid() && View() == h.(chans := h.chans + [NEW_CHAN]);
      Enlist(c);
    }

    method Enlist(c: Client)
      requires Valid() && Member(c)
      modifies this`clients
      ensures Valid() && View() == old(View()).(clients := old(View()).clients + {c.id})
    {
      clients := clients + {c};
    }

    method Unregister(c: Client)
      requires Valid() && c in all
      requires c in clients ==> Open(c.chan)
      modifies this`clients, this`queues, this`left, c, queues.Values
      ensures Valid() && View() == Relay.Unregister(old(View()), c.id) && all == old(all)
      ensures queues.Values <= old(queues.Values)
    {
      if c in clients {
        Forget(c);
        Vacate(c);
      }
    }

    method Vacate(c: Client)
      requires Valid() && Member(c)
      modifies this`queues, this`left, queues.Values
      ensures Valid() && queues.Values <= old(queues.Values)
      ensures View() == old(View()).(queues := Relay.Release(old(View()).queues, c.id),
        left := old(View()).left + {c.id})
    {
      ReleaseQueue(c);
      left := left + {c.id};
      assert Channels(all) == old(Channels(all));
    }

    /** What unregister and kick share: out of the registry, and the channel closed. */
    method Forget(c: Client)
      requires Valid() && c in clients && Open(c.chan)
      modifies this`clients, c
      ensures Valid()
      ensures View() == old(View()).(clients := old(View()).clients - {c.id},
        chans := old(View()).chans[c.id := Close(old(c.chan))])
    {
      NumbersWithout(c);
      clients := clients - {c};
      var panicked := c.CloseSend();
    }

    lemma NumbersWithout(c: Client)
      requires Valid() && c in clients
      ensures (set d | d in clients - {c} :: d.id) == (set d | d in clients :: d.id) - {c.id}
    {
    }

    /** The range over the table, which deletes from it. A range visits the entries in any
        order: `todo` are those not yet visited. */
    method ReleaseQueue(c: Client)
      requires ValidTable() && Member(c)
      modifies this`queues, queues.Values
      ensures ValidTable() && queues.Values <= old(queues.Values)
      ensures Table(queues) == Relay.Release(old(Table(queues)), c.id)
    {
      ghost var table := Table(queues);
      var todo := queues.Keys;
      while todo != {}
        invariant ValidTable() && queues.Values <= old(queues.Values)
        invariant todo <= queues.Keys <= table.Keys
        invariant forall q :: q in table ==> Visited(table[q], c, q, q in todo)
      {
        var qid :| qid in todo;
        Visit(qid, c, table, todo);
        todo := todo - {qid};
      }
      AllReleased(table, c);
    }

    lemma AllReleased(table: map<string, Relay.Entry>, c: Client)
      requires queues.Keys <= table.Keys && forall q :: q in table ==> Visited(table[q], c, q, false)
      ensures Table(queues) == Relay.Release(table, c.id)
    {
      var now := Relay.Release(table, c.id);
      assert Table(queues).Keys == queues.Keys;
      forall q | q in table ensures q in now <==> q in queues {
        assert Visited(table[q], c, q, false);
      }
    }

    ghost predicate Visited(was: Relay.Entry, c: Client, qid: string, waiting: bool)
      reads this`queues, queues.Values
    {
      if waiting then qid in queues && queues[qid].Entry() == was else Released(was, c, qid)
    }

    /** The entry at qid has become what Relay.Drop says, or is gone. */
    ghost predicate Released(was: Relay.Entry, c: Client, qid: string)
      reads this`queues, queues.Values
    {
      var now := Relay.Drop(was, c.id);
      if now == Relay.NOBODY then qid !in queues else qid in queues && queues[qid].Entry() == now
    }

    method Visit(qid: string, c: Client, ghost table: map<string, Relay.Entry>, ghost todo: set<string>)
      requires ValidTable() && Member(c) && qid in todo && todo <= queues.Keys <= table.Keys
      requires forall q :: q in table ==> Visited(table[q], c, q, q in todo)
      modifies this`queues, queues[qid]
      ensures ValidTable() && queues.Values <= old(queues.Values) && todo - {qid} <= queues.Keys <= table.Keys
      ensures forall q :: q in table ==> Visited(table[q], c, q, q in todo - {qid})
    {
      assert Visited(table[qid], c, qid, true);
      ReleaseOne(qid, c);
      forall q | q in table && q != qid ensures Visited(table[q], c, q, q in todo) {
        assert old(Visited(table[q], c, q, q in todo));
      }
    }

    method ReleaseOne(qid: string, c: Client)
      requires ValidTable() && Member(c) && qid in queues
      modifies this`queues, queues[qid]
      ensures ValidTable() && Released(old(queues[qid].Entry()), c, qid)
      ensures queues == old(queues) || queues == old(queues) - {qid}
      ensures forall q :: q in queues && q != qid ==> queues[q].Entry() == old(queues[q].Entry())
    {
      var qs := queues[qid];
      if qs.owner == c { qs.owner := null; }
      if qs.sub == c { qs.sub := null; }
      if qs.owner == null && qs.sub == null { queues := queues - {qid}; }
    }

    method Kick(c: Client)
      requires Valid() && c in all
      requires c in clients ==> Open(c.chan)
      modifies this`clients, this`kicked, c
      ensures Valid() && View() == Relay.Kick(old(View()), c.id)
    {
      if c in clients { Expel(c); }
    }

    method Expel(c: Client)
      requires Valid() && c in clients && Open(c.chan)
      modifies this`clients, this`kicked, c
      ensures Valid()
      ensures View() == old(View()).(clients := old(View()).clients - {c.id},
        chans := old(View()).chans[c.id := Close(old(c.chan))], kicked := old(View()).kicked + {c.id})
    {
      Forget(c);
      ghost var h := View();
      kicked := kicked + {c.id};
      assert View() == h.(kicked := kicked);
    }

    // ---- sending ----

    method SendTo(c: Client, f: Frame) returns (crashed: bool)
      requires Valid() && c in all
      modifies c
      ensures Ends(crashed, Relay.SendTo(old(View()), c.id, f)) && crashed == !Open(old(c.chan))
    {
      crashed := c.SendEnvelope(f);
      OnlyChannel(c);
    }

    /** Nothing changed but the channel of c. */
    twostate lemma OnlyChannel(c: Client)
      requires old(Valid()) && c in all && c.Valid()
      requires unchanged(this, store) && unchanged(old(queues.Values), set d | d in old(all) && d != c)
      ensures Valid() && View() == old(View()).(chans := old(View()).chans[c.id := c.chan])
    {
      assert Channels(all) == old(Channels(all))[c.id := c.chan];
      assert Table(queues) == old(Table(queues));
    }

    /** The connection's write pump is scheduled in between. */
    method Meanwhile(c: Client, k: nat)
      requires Valid() && c in all
      modifies c
      ensures Valid() && View() == Relay.Written(old(View()), c.id, k)
    {
      c.WritePump(k);
      OnlyChannel(c);
    }

    method ReplayOffline(c: Client, qid: string, o: Relay.Oracle)
      requires Valid() && c in all && Open(c.chan)
      modifies c
      ensures Valid()
      ensures var rows := if o.queryFails then [] else Tables.Undelivered(store.book.db, qid);
        View() == old(View()).(chans := old(View()).chans[c.id :=
          Relay.Replay(old(c.chan), qid, rows, o, |rows|)])
        && c.chan.tried == old(c.chan).tried + Replies.Deliveries(qid, rows, |rows|)
    {
      var ok, msgs := store.Undelivered(qid, o.queryFails);
      var i := 0;
      while i < |msgs|
        invariant 0 <= i <= |msgs| && c.Valid() && Open(c.chan)
        invariant c.chan == Relay.Replay(old(c.chan), qid, msgs, o, i)
      {
        c.WritePump(Relay.TakesBefore(o, i));
        var panicked := c.SendEnvelope(Relay.DeliverRow(qid, msgs[i]));
        i := i + 1;
      }
      Replies.EachRowIsOffered(old(c.chan), qid, msgs, o, |msgs|);
      OnlyChannel(c);
    }

    // ---- commands ----

    method Install(qid: string, owner: Client?) returns (qs: QueueState)
      requires Valid() && Member(owner)
      modifies this`queues
      ensures Valid() && fresh(qs) && queues == old(queues)[qid := qs]
      ensures View() == old(View()).(queues := old(View()).queues[qid := Relay.Entry(Role(owner), None)])
    {
      qs := new QueueState(owner);
      queues := queues[qid := qs];
      assert Channels(all) == old(Channels(all));
      assert Table(queues) == old(Table(queues))[qid := Relay.Entry(Role(owner), None)];
    }

    method Subscribe(qid: string, c: Client)
      requires Valid() && Member(c) && qid in queues
      modifies queues[qid]
      ensures Valid()
      ensures View() == old(View()).(queues := old(View()).queues[qid := old(View()).queues[qid].(sub := Some(c.id))])
    {
      SetSub(qid, c);
      assert Channels(all) == old(Channels(all));
    }

    method SetSub(qid: string, c: Client)
      requires ValidTable() && Member(c) && qid in queues
      modifies queues[qid]
      ensures ValidTable() && Table(queues) == old(Table(queues))[qid := old(queues[qid].Entry()).(sub := Some(c.id))]
    {
      queues[qid].sub := c;
    }

    /** CreateQueue, then TouchQueue. */
    method Create(qid: string, now: int, fails: bool) returns (ok: bool)
      requires Valid()
      modifies store
      ensures Valid() && ok == !fails
      ensures View() == if ok then old(View()).(vault :=
        Ledger.Touch(Ledger.Create(old(store.book), qid, now), qid, now)) else old(View())
    {
      ok := store.CreateQueue(qid, now, fails);
      if ok { var touched := store.TouchQueue(qid, now, false); }
      assert Channels(all) == old(Channels(all)) && Table(queues) == old(Table(queues));
    }

    method HandleNew(c: Client, env: Envelope, now: int, o: Relay.Oracle) returns (crashed: bool)
      requires Valid() && c in all
      modifies this`queues, store, c
      ensures Ends(crashed, Relay.HandleNew(old(View()), c.id, env, now, o))
      ensures fresh(queues.Values - old(queues.Values))
    {
      if env.qid != "" {
        crashed := SendTo(c, Error(BAD_REQUEST));
        return;
      }
      if o.idFails {
        crashed := SendTo(c, Error(SERVER_ERROR));
        return;
      }
      var qid := o.newId;
      var ok := Create(qid, now, o.writeFails);
      if !ok {
        crashed := SendTo(c, Error(SERVER_ERROR));
        return;
      }
      var qs := Install(qid, c);
      crashed := SendTo(c, NewOk(qid));
    }

    /** The part SUB and SEND share: the entry of the queue, if need be revived from the
        tables, or none after an error was answered. */
    method Lookup(c: Client, qid: string, o: Relay.Oracle) returns (found: bool, crashed: bool)
      requires Valid() && c in all
      modifies this`queues, c
      ensures found == Relay.LookupError(old(View()), qid, o).None?
      ensures !found ==>
        Ends(crashed, Relay.SendTo(old(View()), c.id, Error(Relay.LookupError(old(View()), qid, o).value)))
      ensures found ==> (!crashed && Valid() && qid in queues && c.chan == old(c.chan)
        && View() == old(View()).(queues := old(View()).queues[qid := Relay.Cached(old(View()), qid)]))
      ensures fresh(queues.Values - old(queues.Values))
    {
      if !ValidQueueID(qid) {
        crashed := SendTo(c, Error(BAD_REQUEST));
        return false, crashed;
      }
      if qid in queues {
        assert View().queues[qid := View().queues[qid]] == View().queues;
        return true, false;
      }
      found, crashed := Revive(c, qid, o.existsFails);
    }

    method Revive(c: Client, qid: string, fails: bool) returns (found: bool, crashed: bool)
      requires Valid() && c in all && qid !in queues
      modifies this`queues, c
      ensures found == (!fails && qid in old(store.book).db.queues)
      ensures !found ==>
        Ends(crashed, Relay.SendTo(old(View()), c.id, Error(if fails then SERVER_ERROR else QUEUE_NOT_FOUND)))
      ensures found ==> (!crashed && Valid() && qid in queues && c.chan == old(c.chan)
        && View() == old(View()).(queues := old(View()).queues[qid := Relay.NOBODY]))
      ensures fresh(queues.Values - old(queues.Values))
    {
      var ok, exists_ := store.QueueExists(qid, fails);
      if !ok || !exists_ {
        crashed := SendTo(c, Error(if !ok then SERVER_ERROR else QUEUE_NOT_FOUND));
        return false, crashed;
      }
      var qs := Install(qid, null);
      return true, false;
    }

    /** Every registered connection can still be closed: Invariants.Lifecycle keeps this. */
    ghost predicate Closable()
      reads this, all
    {
      forall i :: 0 <= i < |all| && all[i] in clients ==> Open(all[i].chan)
    }

    method TakePlace(qid: string, c: Client)
      requires Valid() && Closable() && c in all && qid in queues
      modifies this`clients, this`kicked, queues[qid], all
      ensures Valid() && View() == Relay.TakePlace(old(View()), c.id, qid)
    {
      var qs := queues[qid];
      if qs.sub != null && qs.sub != c { Kick(qs.sub); }
      Subscribe(qid, c);
    }

    /** SUB_OK is enqueued before the replay. */
    method Answer(c: Client, qid: string, now: int, o: Relay.Oracle) returns (crashed: bool)
      requires Valid() && c in all
      modifies c, store
      ensures Ends(crashed, Relay.Answer(old(View()), c.id, qid, now, o))
    {
      crashed := SendTo(c, SubOk(qid));
      if !crashed {
        assert c.chan == View().chans[c.id];
        ReplayOffline(c, qid, o);
        Touch(qid, now);
      }
    }

    method HandleSub(c: Client, qid: string, now: int, o: Relay.Oracle) returns (crashed: bool)
      requires Valid() && Closable() && c in all
      modifies this`clients, this`queues, this`kicked, store, all, queues.Values
      ensures Ends(crashed, Relay.HandleSub(old(View()), c.id, qid, now, o))
      ensures fresh(queues.Values - old(queues.Values))
    {
      var found;
      found, crashed := Lookup(c, qid, o);
      if !found { return; }
      crashed := Join(c, qid, now, o, old(View()));
    }

    /** SUB after its lookup; h is the state before. */
    method Join(c: Client, qid: string, now: int, o: Relay.Oracle, ghost h: Relay.Hub) returns (crashed: bool)
      requires Valid() && Closable() && c in all && qid in queues
      requires Relay.Indexed(h) && |h.chans| == |all| && Relay.LookupError(h, qid, o).None?
      requires View() == h.(queues := h.queues[qid := Relay.Cached(h, qid)])
      modifies this`clients, this`kicked, queues[qid], store, all
      ensures Ends(crashed, Relay.HandleSub(h, c.id, qid, now, o))
    {
      ReviveFirst(h, c.id, qid, now, o);
      if queues[qid].owner == c {
        crashed := SendTo(c, Error(BAD_REQUEST));
        return;
      }
      TakePlace(qid, c);
      crashed := Answer(c, qid, now, o);
    }

    method Touch(qid: string, now: int)
      requires Valid()
      modifies store
      ensures Valid() && View() == old(View()).(vault := Ledger.Touch(old(store.book), qid, now))
    {
      var touched := store.TouchQueue(qid, now, false);
      assert Channels(all) == old(Channels(all)) && Table(queues) == old(Table(queues));
    }

    /** SaveMessage, then TouchQueue. */
    method Save(mid: string, qid: string, payload: Payload, now: int, fails: bool) returns (ok: bool)
      requires Valid()
      modifies store
      ensures Valid() && ok == (!fails && Ledger.MayAccept(old(store.book), mid, qid))
      ensures View() == if ok then old(View()).(vault :=
        Ledger.Touch(Ledger.Accept(old(store.book), mid, qid, payload, now), qid, now)) else old(View())
    {
      ok := store.SaveMessage(mid, qid, payload, now, fails);
      if ok { var touched := store.TouchQueue(qid, now, false); }
      assert Channels(all) == old(Channels(all)) && Table(queues) == old(Table(queues));
    }

    method Acknowledge(mid: string, fails: bool) returns (ok: bool)
      requires Valid()
      modifies store
      ensures Valid() && ok == !fails
      ensures View() == if ok then old(View()).(vault := Ledger.Acknowledge(old(store.book), mid)) else old(View())
    {
      ok := store.DeleteMessage(mid, fails);
      assert Channels(all) == old(Channels(all)) && Table(queues) == old(Table(queues));
    }

    /** Every message is stored first, whether or not somebody is listening. */
    method HandleSend(c: Client, env: Envelope, now: int, o: Relay.Oracle) returns (crashed: bool)
      requires Valid() && c in all
      modifies this`queues, store, all
      ensures Ends(crashed, Relay.HandleSend(old(View()), c.id, env, now, o))
      ensures fresh(queues.Values - old(queues.Values))
    {
      var qid := env.qid;
      var found;
      found, crashed := Lookup(c, qid, o);
      if !found { return; }
      crashed := Deposit(c, env, now, o, old(View()));
    }

    /** SEND after its lookup; h is the state before. */
    method Deposit(c: Client, env: Envelope, now: int, o: Relay.Oracle, ghost h: Relay.Hub) returns (crashed: bool)
      requires Valid() && c in all && env.qid in queues
      requires Relay.Indexed(h) && |h.chans| == |all| && Relay.LookupError(h, env.qid, o).None?
      requires View() == h.(queues := h.queues[env.qid := Relay.Cached(h, env.qid)])
      modifies store, all
      ensures Ends(crashed, Relay.HandleSend(h, c.id, env, now, o))
    {
      var mid := if env.mid != "" then env.mid else if o.idFails then "" else o.newId;
      var ok := Save(mid, env.qid, env.payload, now, o.writeFails);
      if !ok {
        crashed := SendTo(c, Error(SERVER_ERROR));
        return;
      }
      crashed := Forward(c, env.qid, mid, env.payload, o);
    }

    method Forward(c: Client, qid: string, mid: string, payload: Payload, o: Relay.Oracle) returns (crashed: bool)
      requires Valid() && c in all && qid in queues
      modifies all
      ensures Ends(crashed,
        Relay.Forward(old(View()), c.id, old(View()).queues[qid].sub, qid, mid, payload, o))
    {
      var sub := queues[qid].sub;
      if sub != null {
        crashed := SendTo(sub, Deliver(qid, mid, payload));
        if crashed { return; }
      }
      crashed := Confirm(c, qid, mid, o);
    }

    /** The log line slices the id; then the sender hears of it. */
    method Confirm(c: Client, qid: string, mid: string, o: Relay.Oracle) returns (crashed: bool)
      requires Valid() && c in all
      modifies c
      ensures Ends(crashed,
        if Relay.Sliceable(mid)
        then Relay.SendTo(Relay.Written(old(View()), c.id, Relay.TakesBefore(o, 0)), c.id, Acked(qid, mid))
        else Relay.Crashed(old(View())))
    {
      if !Relay.Sliceable(mid) { return true; }
      Meanwhile(c, Relay.TakesBefore(o, 0));
      crashed := SendTo(c, Acked(qid, mid));
    }

    method HandleAck(env: Envelope, o: Relay.Oracle) returns (crashed: bool)
      requires Valid()
      modifies store
      ensures Ends(crashed, Relay.HandleAck(old(View()), env, o))
    {
      var ok := Acknowledge(env.mid, o.writeFails);
      return !(Relay.Sliceable(env.qid) && Relay.Sliceable(env.mid));
    }

    method Handle(c: Client, env: Envelope, now: int, o: Relay.Oracle) returns (crashed: bool)
      requires Valid() && Closable() && c in all
      modifies this`clients, this`queues, this`kicked, store, all, queues.Values
      ensures Ends(crashed, Relay.Handle(old(View()), c.id, env, now, o))
      ensures fresh(queues.Values - old(queues.Values))
    {
      match env.kind
      case NEW => crashed := HandleNew(c, env, now, o);
      case SUB => crashed := HandleSub(c, env.qid, now, o);
      case SEND => crashed := HandleSend(c, env, now, o);
      case ACK => crashed := HandleAck(env, o);
      case _ => crashed := SendTo(c, Error(BAD_REQUEST));
    }

    /** What the read pump of c does with one message: bad ones and PING are answered on the
        spot, everything else is routed to the hub. */
    method Read(c: Client, m: Message, now: int, o: Relay.Oracle) returns (crashed: bool)
      requires Valid() && Closable() && c in all
      modifies this`clients, this`queues, this`kicked, store, all, queues.Values
      ensures Ends(crashed, Relay.Read(old(View()), c.id, m, now, o))
      ensures fresh(queues.Values - old(queues.Values))
    {
      var parsed := Parse(m);
      if parsed.None? {
        crashed := SendTo(c, Error(BAD_REQUEST));
      } else if parsed.value.kind == PING {
        crashed := SendTo(c, Pong);
      } else {
        crashed := Handle(c, parsed.value, now, o);
      }
    }

    // ---- Run ----

    /** One event of a process whose state is p: the object takes exactly the step of the
        transition system, so it keeps every invariant proved there. */
    method Turn(e: Event, ghost p: Steps.Process) returns (crashed: bool)
      requires Valid() && Invariants.ProcessInv(p) && View() == p.hub && Steps.Enabled(p, StepOf(e))
      requires e.now == p.now
      requires if e.Registered? then e.c.Valid() && e.c.chan == NEW_CHAN && e.c.id == |all| else e.c in all
      modifies this, store, all, queues.Values
      ensures Invariants.ProcessInv(Steps.Apply(p, StepOf(e)))
      ensures var p' := Steps.Apply(p, StepOf(e));
        Valid() && if crashed then p' == Steps.Rebooted(p, View()) else View() == p'.hub
      ensures fresh(queues.Values - old(queues.Values))
      ensures all == if e.Registered? then old(all) + [e.c] else old(all)
    {
      Invariants.StepKeeps(p, StepOf(e));
      OpenIsClosable(p);
      crashed := false;
      match e
      case Registered(c, _) => Register(c);
      case Incoming(c, m, now, o) => crashed := Read(c, m, now, o);
      case Unregistered(c, _) => Unregister(c);
    }

    lemma OpenIsClosable(p: Steps.Process)
      requires Valid() && View() == p.hub && Invariants.ProcessInv(p)
      ensures Closable()
    {
      forall i | 0 <= i < |all| && all[i] in clients ensures Open(all[i].chan) {
        assert all[i].id in p.hub.clients && p.hub.chans[i] == all[i].chan;
      }
    }
  }

  /** What reaches a hub: serveWS registers, the read pumps route and finally unregister. */
  datatype Event =
    | Registered(c: Client, now: int)
    | Incoming(c: Client, m: Message, now: int, o: Relay.Oracle)
    | Unregistered(c: Client, now: int)

  function StepOf(e: Event): Steps.Step {
    match e
    case Registered(_, _) => Steps.Connect
    case Incoming(c, m, _, o) => Steps.Incoming(c.id, m, o)
    case Unregistered(c, _) => Steps.Disconnect(c.id)
  }
}
