/** What the relay promises over every run, for arbitrary clients: any interleaving of
    connections, commands, write pumps, sweep statements, clock ticks, restarts and crashes. */
module Guarantees {
  import opened Ids
  import opened Frames
  import opened Channel
  import opened Relay
  import opened Steps
  import opened Invariants
  import Tables
  import Ledger

  ghost predicate Reachable(p: Process) {
    exists ss :: Runs(START, ss, p)
  }

  lemma ReachableIsSound(p: Process)
    requires Reachable(p)
    ensures ProcessInv(p)
  {
    var ss :| Runs(START, ss, p);
    StartIsSound();
    RunKeeps(START, ss, p);
  }

  // ---- the ledger ----

  /** Accepted messages are, each in exactly one way, still stored, acknowledged, or expired;
      a stored one is stored as it was accepted; none is marked delivered. */
  lemma NothingAcceptedIsLost(p: Process)
    requires Reachable(p)
    ensures var v := p.hub.vault;
      && (forall n: nat :: n < |v.log| <==> n in Ledger.Stored(v) || n in v.acked || n in v.expired)
      && Ledger.Stored(v) !! v.acked !! v.expired
      && (forall r :: r in v.db.rows ==> Ledger.Booked(v, r))
  {
    ReachableIsSound(p);
  }

  /** The envelope a step hands to the hub. */
  function Command(s: Step): Option<Envelope> {
    match s
    case Incoming(_, m, _) => Parse(m)
    case Die(_, env, _, _) => Some(env)
    case _ => None
  }

  /** Message n is stored in a queue that was last touched before cutoff. */
  ghost predicate WasIdle(v: Vault, n: nat, cutoff: int) {
    && n < |v.log| && v.log[n].qid in v.db.queues
    && 0 < v.db.queues[v.log[n].qid].lastActive < cutoff
  }

  /** Only SEND adds to the log, only an ACK of its id acknowledges a message, and only
      the sweep expires one: never a message of a queue touched within the time to live. */
  lemma LedgerMovesOnlySo(p: Process, s: Step)
    requires ProcessInv(p) && Enabled(p, s)
    ensures var v, v' := p.hub.vault, Apply(p, s).hub.vault;
      && v.log <= v'.log && |v'.log| <= |v.log| + 1
      && (v'.log != v.log ==> Command(s).Some? && Command(s).value.kind == SEND)
      && v.acked <= v'.acked && v.expired <= v'.expired
      && (forall n :: n in v'.acked - v.acked ==>
            Command(s).Some? && Command(s).value.kind == ACK && n in Ledger.Stored(v)
            && Command(s).value.mid in v.number && v.number[Command(s).value.mid] == n)
      && (forall n :: n in v'.expired - v.expired ==>
            s.SweepMessages? && n in Ledger.Stored(v) && WasIdle(v, n, p.now - QUEUE_TTL))
  {
    var v := p.hub.vault;
    match s
    case Incoming(c, m, o) =>
      if Parse(m).Some? && Parse(m).value.kind != PING {
        var env := Parse(m).value;
        HandleMovesOnlySo(p.hub, c, env, p.now, o);
      }
    case Die(c, env, o, stage) =>
      HandleMovesOnlySo(p.hub, c, env, p.now, o);
      BetweenMovesOnlySo(p.hub, c, env, p.now, o, stage);
    case SweepMessages(at) =>
      var v' := Ledger.ExpireMessages(v, at - QUEUE_TTL);
      forall n | n in v'.expired - v.expired
        ensures WasIdle(v, n, p.now - QUEUE_TTL)
      {
        var r :| r in v.db.rows && r.mid in v.number && v.number[r.mid] == n;
        assert r !in v'.db.rows && Ledger.Booked(v, r);
      }
    case _ =>
  }

  /** What a command may do to the ledger. */
  ghost predicate MovesOnlySo(v: Vault, env: Envelope, v': Vault) {
    && v.log <= v'.log && |v'.log| <= |v.log| + 1
    && (v'.log != v.log ==> env.kind == SEND)
    && v'.expired == v.expired && v.acked <= v'.acked
    && (forall n :: n in v'.acked - v.acked ==>
          env.kind == ACK && n in Ledger.Stored(v) && env.mid in v.number && v.number[env.mid] == n)
  }

  lemma HandleMovesOnlySo(h: Hub, c: Conn, env: Envelope, now: int, o: Oracle)
    requires Ledger.Sound(h.vault) && Indexed(h) && c < |h.chans|
    ensures MovesOnlySo(h.vault, env, Handle(h, c, env, now, o).hub.vault)
  {
    match env.kind
    case SUB => SubStores(h, c, env.qid, now, o);
    case SEND => SendStores(h, c, env, now, o);
    case ACK => Ledger.AcknowledgeTakesOne(h.vault, env.mid);
    case _ =>
  }

  lemma BetweenMovesOnlySo(h: Hub, c: Conn, env: Envelope, now: int, o: Oracle, i: nat)
    requires c < |h.chans| && Known(h, Cached(h, env.qid).sub)
    ensures i < |Between(h, c, env, now, o)| ==> MovesOnlySo(h.vault, env, Between(h, c, env, now, o)[i].vault)
  {
    if 0 < i < |Between(h, c, env, now, o)| {
      match env.kind
      case SUB => SubBetweenAt(h, c, env, now, o, i);
      case SEND => SendBetweenMovesOnlySo(h, c, env, now, o, i);
      case _ =>
    }
  }

  lemma SendBetweenMovesOnlySo(h: Hub, c: Conn, env: Envelope, now: int, o: Oracle, i: nat)
    requires c < |h.chans| && Known(h, Cached(h, env.qid).sub) && env.kind == SEND
    requires 0 < i < |Between(h, c, env, now, o)|
    ensures MovesOnlySo(h.vault, env, Between(h, c, env, now, o)[i].vault)
  {
    SendBetweenAt(h, c, env, now, o, i);
  }

  /** Acceptance n is this message, and it is stored, acknowledged or expired. */
  ghost predicate IsAcceptance(v: Vault, n: nat, qid: string, mid: string, payload: Payload) {
    && n < |v.log| && v.log[n].mid == mid && v.log[n].qid == qid && v.log[n].payload == payload
    && (n in Ledger.Stored(v) || n in v.acked || n in v.expired)
  }

  /** Every DELIVER the hub ever tried to send, dropped or not, names a message accepted
      before, with its queue and payload; its row can only have left by ACK or expiry. The
      same for every acknowledgement of a SEND. */
  lemma FramesNameAcceptedMessages(p: Process, c: Conn, f: Frame)
    requires Reachable(p) && c < |p.hub.chans| && f in p.hub.chans[c].tried
    ensures f.Deliver? ==> exists n :: IsAcceptance(p.hub.vault, n, f.qid, f.mid, f.payload)
    ensures f.Acked? ==> exists n, payload :: IsAcceptance(p.hub.vault, n, f.qid, f.mid, payload)
  {
    ReachableIsSound(p);
    var i :| 0 <= i < |p.hub.chans[c].tried| && p.hub.chans[c].tried[i] == f;
    assert Truthful(p.hub.vault, p.hub.chans[c].tried[i]);
    var v := p.hub.vault;
    if f.Deliver? {
      var n :| 0 <= n < |v.log| && v.log[n].mid == f.mid && v.log[n].qid == f.qid && v.log[n].payload == f.payload;
      assert IsAcceptance(v, n, f.qid, f.mid, f.payload);
    } else if f.Acked? {
      var n :| 0 <= n < |v.log| && v.log[n].mid == f.mid && v.log[n].qid == f.qid;
      assert IsAcceptance(v, n, f.qid, f.mid, v.log[n].payload);
    }
  }

  // ---- the sweep ----

  /** However Sweep's statements interleave with commands: no message refers to a missing
      queue, the second statement is never refused by the foreign key and removes only idle
      queues without messages, and the third removes nothing. */
  lemma SweepIsSafe(p: Process)
    requires Reachable(p)
    ensures Tables.Intact(p.hub.vault.db) && Indexed(p.hub)
    ensures p.sweeper.MessagesDone? ==>
      && Apply(p, SweepQueues).sweeper.QueuesDone?
      && forall q :: q in p.hub.vault.db.queues && q !in Apply(p, SweepQueues).hub.vault.db.queues ==>
           && 0 < p.hub.vault.db.queues[q].lastActive < p.now - QUEUE_TTL
           && forall r :: r in p.hub.vault.db.rows ==> r.qid != q
    ensures p.sweeper.QueuesDone? ==> Apply(p, SweepResidue).hub.vault == p.hub.vault
  {
    ReachableIsSound(p);
    HubInvIsIndexed(p.hub, p.birth);
    Ledger.SoundIsIntact(p.hub.vault);
    if p.sweeper.QueuesDone? { Ledger.ResidueIsEmpty(p.hub.vault, p.sweeper.at - ACK_GRACE); }
    if p.sweeper.MessagesDone? {
      var db := p.hub.vault.db;
      forall q | q in db.queues && q !in Apply(p, SweepQueues).hub.vault.db.queues
        ensures 0 < db.queues[q].lastActive < p.now - QUEUE_TTL && forall r :: r in db.rows ==> r.qid != q
      {
        forall r | r in db.rows ensures r.qid != q {
          assert !Tables.InExpiredQueue(db, r, p.sweeper.at - QUEUE_TTL);
        }
      }
    }
  }

  // ---- channels and references ----

  /** A connection of this process has an open channel exactly while it is in clients; no
      channel is ever closed twice; at most sixteen frames wait; what is written is an
      ordered subsequence of what was tried; every owner and sub is in clients or was
      kicked, and nobody is both owner and sub of one queue. */
  lemma ConnectionsAreConsistent(p: Process)
    requires Reachable(p)
    ensures forall c: Conn :: p.birth <= c < |p.hub.chans| ==> (Open(p.hub.chans[c]) <==> c in p.hub.clients)
    ensures forall c: Conn :: c < |p.hub.chans| ==> var ch := p.hub.chans[c];
      ch.closes <= 1 && ch.popped <= |ch.hist| <= ch.popped + CAPACITY && Subsequence(ch.hist[..ch.popped], ch.tried)
    ensures forall q :: q in p.hub.queues ==> Referenced(p.hub, p.hub.queues[q])
    ensures p.hub.clients !! p.hub.kicked !! p.hub.left
  {
    ReachableIsSound(p);
    forall c: Conn | c < |p.hub.chans|
      ensures var ch := p.hub.chans[c]; ch.popped <= |ch.hist| && Subsequence(ch.hist[..ch.popped], ch.tried)
    {
      WrittenIsSubsequence(p.hub.chans[c]);
    }
  }

  // ---- crashes ----

  /** Whether handling m crashes the server, read off the state before. */
  ghost predicate Fatal(h: Hub, c: Conn, m: Message, o: Oracle) {
    match Parse(m)
    case None => c !in h.clients
    case Some(env) =>
      match env.kind
      case SEND =>
        || c !in h.clients
        || (Accepts(h, env, o) &&
            (!Sliceable(MessageId(env, o)) ||
             (Cached(h, env.qid).sub.Some? && Cached(h, env.qid).sub.value !in h.clients)))
      case ACK => !Sliceable(env.qid) || !Sliceable(env.mid)
      case _ => c !in h.clients
  }

  /** The server crashes exactly when a kicked connection's command is answered, when an
      accepted SEND meets a subscriber that was kicked off another queue, or when an id is
      too short to be sliced for the log. */
  lemma CrashesExactlyWhenFatal(p: Process, c: Conn, m: Message, o: Oracle)
    requires ProcessInv(p) && Enabled(p, Incoming(c, m, o))
    ensures Read(p.hub, c, m, p.now, o).Crashed? <==> Fatal(p.hub, c, m, o)
  {
    var h := p.hub;
    if Parse(m).Some? && Parse(m).value.kind != PING {
      var env := Parse(m).value;
      CachedIsReferenced(h, p.birth, env.qid);
      match env.kind
      case SUB => SubCrashes(h, p.birth, c, env.qid, p.now, o);
      case SEND => SendCrashes(h, p.birth, c, env, p.now, o);
      case _ =>
    }
  }

  lemma SubCrashes(h: Hub, birth: Conn, c: Conn, qid: string, now: int, o: Oracle)
    requires HubInv(h, birth) && birth <= c < |h.chans| && Known(h, Cached(h, qid).sub)
    ensures HandleSub(h, c, qid, now, o).Crashed? <==> c !in h.clients
  {
    var e := Cached(h, qid);
    if LookupError(h, qid, o).None? && e.owner != Some(c) {
      var h1 := if e.sub.Some? && e.sub != Some(c) then Kick(h, e.sub.value) else h;
      assert Open(h1.chans[c]) <==> c in h.clients;
    }
  }

  lemma SendCrashes(h: Hub, birth: Conn, c: Conn, env: Envelope, now: int, o: Oracle)
    requires HubInv(h, birth) && birth <= c < |h.chans| && Known(h, Cached(h, env.qid).sub)
    requires Referenced(h, Cached(h, env.qid)) && env.kind == SEND
    ensures HandleSend(h, c, env, now, o).Crashed? <==>
      || c !in h.clients
      || (Accepts(h, env, o) &&
          (!Sliceable(MessageId(env, o)) ||
           (Cached(h, env.qid).sub.Some? && Cached(h, env.qid).sub.value !in h.clients)))
  {
    assert Open(h.chans[c]) <==> c in h.clients;
    var sub := Cached(h, env.qid).sub;
    if sub.Some? { assert Open(h.chans[sub.value]) <==> sub.value in h.clients; }
  }

  // ---- well-behaved clients ----

  /** Clients obey in step s: only connections in clients issue commands, ids can be sliced,
      and no connection asks for a second queue. asked records what each has asked for. */
  ghost predicate Obeys(p: Process, s: Step, asked: map<Conn, string>) {
    s.Incoming? ==>
      && s.c in p.hub.clients
      && (Parse(s.m).Some? ==>
            var env := Parse(s.m).value;
            && (env.kind == ACK ==> Sliceable(env.qid) && Sliceable(env.mid))
            && (env.kind == SEND ==> Sliceable(MessageId(env, s.o)))
            && (env.kind == SUB && s.c in asked ==> asked[s.c] == env.qid))
  }

  function Asking(s: Step, asked: map<Conn, string>): map<Conn, string> {
    if s.Incoming? && Parse(s.m).Some? && Parse(s.m).value.kind == SUB then asked[s.c := Parse(s.m).value.qid]
    else asked
  }

  ghost predicate RunsObediently(p: Process, ss: seq<Step>, p': Process, asked: map<Conn, string>)
    decreases ss
  {
    if ss == [] then p' == p
    else
      && Enabled(p, ss[0]) && Obeys(p, ss[0], asked)
      && RunsObediently(Apply(p, ss[0]), ss[1..], p', Asking(ss[0], asked))
  }

  /** Every subscriber is a connected client, of the one queue it asked for. */
  ghost predicate SubsLive(h: Hub, asked: map<Conn, string>) {
    forall q :: q in h.queues && h.queues[q].sub.Some? ==>
      var c := h.queues[q].sub.value; c in h.clients && c in asked && asked[c] == q
  }

  lemma SubKeepsSubsLive(h: Hub, c: Conn, qid: string, now: int, o: Oracle, asked: map<Conn, string>)
    requires Indexed(h) && c in h.clients && SubsLive(h, asked) && (c in asked ==> asked[c] == qid)
    requires Known(h, Cached(h, qid).sub)
    ensures HandleSub(h, c, qid, now, o).Alive? ==> SubsLive(HandleSub(h, c, qid, now, o).hub, asked[c := qid])
  {
    var e := Cached(h, qid);
    if LookupError(h, qid, o).None? && e.owner != Some(c) {
      var h1 := if e.sub.Some? && e.sub != Some(c) then Kick(h, e.sub.value) else h;
      var h2 := h1.(queues := h1.queues[qid := e.(sub := Some(c))]);
      assert SubsLive(h2, asked[c := qid]);
    }
  }

  lemma OthersKeepSubsLive(h: Hub, c: Conn, env: Envelope, now: int, o: Oracle, asked: map<Conn, string>)
    requires Indexed(h) && c < |h.chans| && SubsLive(h, asked) && env.kind != SUB
    ensures Handle(h, c, env, now, o).Alive? ==> SubsLive(Handle(h, c, env, now, o).hub, asked)
  {
    match env.kind
    case SEND =>
      var out := HandleSend(h, c, env, now, o);
      if out.Alive? {
        assert out.hub.clients == h.clients;
        assert out.hub.queues == h.queues || out.hub.queues == h.queues[env.qid := Cached(h, env.qid)];
      }
    case _ =>
  }

  lemma ObedienceKeepsSubsLive(p: Process, s: Step, asked: map<Conn, string>)
    requires ProcessInv(p) && Enabled(p, s) && Obeys(p, s, asked) && SubsLive(p.hub, asked)
    ensures SubsLive(Apply(p, s).hub, Asking(s, asked))
    ensures s.Incoming? ==> Read(p.hub, s.c, s.m, p.now, s.o).Alive?
  {
    match s
    case Incoming(c, m, o) =>
      CrashesExactlyWhenFatal(p, c, m, o);
      if Parse(m).Some? {
        var env := Parse(m).value;
        CachedIsReferenced(p.hub, p.birth, env.qid);
        match env.kind
        case SUB => SubKeepsSubsLive(p.hub, c, env.qid, p.now, o, asked);
        case PING =>
        case _ => OthersKeepSubsLive(p.hub, c, env, p.now, o, asked);
      }
    case _ =>
  }

  lemma {:induction false} ObedientRunKeeps(p: Process, ss: seq<Step>, p': Process, asked: map<Conn, string>)
    requires ProcessInv(p) && SubsLive(p.hub, asked) && RunsObediently(p, ss, p', asked)
    ensures ProcessInv(p') && exists asked' :: SubsLive(p'.hub, asked')
    decreases ss
  {
    if ss != [] {
      StepKeeps(p, ss[0]);
      ObedienceKeepsSubsLive(p, ss[0], asked);
      ObedientRunKeeps(Apply(p, ss[0]), ss[1..], p', Asking(ss[0], asked));
    }
  }

  /** With clients that obey, every subscriber is connected after any run, and the next
      command of a connected client cannot crash the server. */
  lemma ObedientClientsNeverCrashTheServer(ss: seq<Step>, p: Process)
    requires RunsObediently(START, ss, p, map[])
    ensures forall q :: q in p.hub.queues && p.hub.queues[q].sub.Some? ==> p.hub.queues[q].sub.value in p.hub.clients
    ensures forall s :: Enabled(p, s) && s.Incoming? && Obeys(p, s, map[]) ==> Read(p.hub, s.c, s.m, p.now, s.o).Alive?
  {
    StartIsSound();
    ObedientRunKeeps(START, ss, p, map[]);
    var asked :| SubsLive(p.hub, asked);
    forall s | Enabled(p, s) && s.Incoming? && Obeys(p, s, map[])
      ensures Read(p.hub, s.c, s.m, p.now, s.o).Alive?
    {
      CrashesExactlyWhenFatal(p, s.c, s.m, s.o);
    }
  }

  /** A takes over the queue of b: b is kicked and stays where else it is subscribed. */
  lemma TakeOverKicksOnly(h: Hub, birth: Conn, a: Conn, b: Conn, qid: string, now: int, o: Oracle)
    requires HubInv(h, birth) && birth <= a < |h.chans| && a in h.clients && b in h.clients && a != b
    requires ValidQueueID(qid) && qid in h.queues && h.queues[qid].sub == Some(b) && h.queues[qid].owner != Some(a)
    ensures var out := HandleSub(h, a, qid, now, o);
      && out.Alive? && out.hub.clients == h.clients - {b} && out.hub.vault == Ledger.Touch(h.vault, qid, now)
      && forall q :: q in h.queues && q != qid ==> q in out.hub.queues && out.hub.queues[q] == h.queues[q]
  {
    SubCrashes(h, birth, a, qid, now, o);
  }

  /** Without that discipline it does happen: b subscribes to two queues and is kicked off
      the first; the next SEND to the second crashes the server, after storing the message. */
  lemma KickedSubscriberCrashesTheServer(p: Process, a: Conn, b: Conn, first: string, second: string,
                                         env: Envelope, o1: Oracle, o2: Oracle)
    requires ProcessInv(p) && a in p.readers && a in p.hub.clients && b in p.hub.clients && a != b
    requires first != second && first in p.hub.queues && second in p.hub.queues
    requires p.hub.queues[first].sub == p.hub.queues[second].sub == Some(b) && p.hub.queues[first].owner != Some(a)
    requires ValidQueueID(first) && WellDrawn(o1) && WellDrawn(o2)
    requires env.kind == SEND && env.qid == second && Accepts(p.hub, env, o2)
    ensures Enabled(p, Subscribing(a, first, o1))
    ensures var p1 := Apply(p, Subscribing(a, first, o1)); var send := Incoming(a, Wire(env), o2);
      && Enabled(p1, send) && a in p1.hub.clients
      && Read(p1.hub, a, send.m, p1.now, o2).Crashed?
      && |Apply(p1, send).hub.vault.log| == |p.hub.vault.log| + 1
  {
    TakeOverStep(p, a, b, first, o1);
    SendToKicked(Apply(p, Subscribing(a, first, o1)), a, b, env, o2);
  }

  lemma TakeOverStep(p: Process, a: Conn, b: Conn, qid: string, o: Oracle)
    requires ProcessInv(p) && a in p.readers && a in p.hub.clients && b in p.hub.clients && a != b && WellDrawn(o)
    requires ValidQueueID(qid) && qid in p.hub.queues && p.hub.queues[qid].sub == Some(b)
    requires p.hub.queues[qid].owner != Some(a)
    ensures Enabled(p, Subscribing(a, qid, o))
    ensures var p1 := Apply(p, Subscribing(a, qid, o));
      && ProcessInv(p1) && p1.readers == p.readers && p1.hub.clients == p.hub.clients - {b}
      && p1.hub.vault == Ledger.Touch(p.hub.vault, qid, p.now)
      && forall q :: q in p.hub.queues && q != qid ==> q in p1.hub.queues && p1.hub.queues[q] == p.hub.queues[q]
  {
    HubInvIsIndexed(p.hub, p.birth);
    StepKeeps(p, Subscribing(a, qid, o));
    TakeOverKicksOnly(p.hub, p.birth, a, b, qid, p.now, o);
    SubscribingIsSub(p, a, qid, o);
  }

  lemma SubscribingIsSub(p: Process, a: Conn, qid: string, o: Oracle)
    requires Enabled(p, Subscribing(a, qid, o))
    ensures Known(p.hub, Cached(p.hub, qid).sub)
    ensures Apply(p, Subscribing(a, qid, o)) == Resume(p, HandleSub(p.hub, a, qid, p.now, o))
  {
  }

  lemma SendToKicked(p: Process, a: Conn, b: Conn, env: Envelope, o: Oracle)
    requires ProcessInv(p) && a in p.readers && a in p.hub.clients && b !in p.hub.clients && WellDrawn(o)
    requires env.kind == SEND && Accepts(p.hub, env, o) && Cached(p.hub, env.qid).sub == Some(b)
    ensures var send := Incoming(a, Wire(env), o);
      && Enabled(p, send) && Read(p.hub, a, send.m, p.now, o).Crashed?
      && |Apply(p, send).hub.vault.log| == |p.hub.vault.log| + 1
  {
    HubInvIsIndexed(p.hub, p.birth);
    CrashesExactlyWhenFatal(p, a, Wire(env), o);
    CrashAfterSaving(p.hub, a, env, p.now, o);
  }

  lemma CrashAfterSaving(h: Hub, c: Conn, env: Envelope, now: int, o: Oracle)
    requires Indexed(h) && c < |h.chans| && Accepts(h, env, o) && HandleSend(h, c, env, now, o).Crashed?
    ensures |HandleSend(h, c, env, now, o).hub.vault.log| == |h.vault.log| + 1
  {
  }
}
