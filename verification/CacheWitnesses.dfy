/** Where the cache shows: runs from the first start after which a queue is cached but not
    stored, or a role outlives its connection. */
module CacheWitnesses {
  import opened Ids
  import opened Frames
  import opened Channel
  import opened Relay
  import opened Steps
  import opened Invariants
  import opened Crashes
  import Guarantees
  import Mailbox
  import Eviction
  import Tables
  import opened Chat
  import World
  import EndToEnd

  // ---- a queue swept while its creator stays ----

  /** 0 creates a queue and stays connected, but silent, for a week. */
  lemma IdleCreator(qid: string) returns (p: Process)
    requires ClientValidQID(qid)
    ensures Calm(p, 2, map[qid := Entry(Some(0), None)]) && p.now == 1 && p.sweeper.Idle?
    ensures p.hub.vault.db.queues == map[qid := Tables.QueueRow(1, 1)]
  {
    assert Runs(START, [], START);
    Connecting(START, 0, map[]);
    p := Apply(START, Connect);
    Connecting(p, 1, map[]);
    p := Apply(p, Connect);
    QueueCreated(p, 2, map[], 0, qid);
    var p' := Apply(p, Creating(0, qid));
    CalmIsIndexed(p, 2, map[]);
    p := p';
  }

  lemma SweptAway(p: Process, qid: string) returns (p': Process)
    requires Calm(p, 2, map[qid := Entry(Some(0), None)]) && p.now == 1 && p.sweeper.Idle?
    requires p.hub.vault.db.queues == map[qid := Tables.QueueRow(1, 1)]
    ensures Guarantees.Reachable(p') && ProcessInv(p') && p'.readers == p.readers
    ensures p'.hub == p.hub.(vault := p'.hub.vault) && p'.hub.vault.db.queues == map[]
  {
    CalmIsIndexed(p, 2, map[qid := Entry(Some(0), None)]);
    var at := QUEUE_TTL + 2;
    StaysReachable(p, Tick(at));
    var p1 := Apply(p, Tick(at));
    StaysReachable(p1, SweepMessages(at));
    var p2 := Apply(p1, SweepMessages(at));
    StaysReachable(p2, SweepQueues);
    p' := Apply(p2, SweepQueues);
    Guarantees.ReachableIsSound(p');
  }

  /** The queue is gone from the tables, its entry is not, and a SUB of another connection
      is answered as no office would. */
  lemma StaleQueueIsReachable()
    ensures exists p, s, q :: (Guarantees.Reachable(p) && Enabled(p, s) && Mailbox.Visible(p, s)
      && Mailbox.Stale(p.hub, q) && p.hub.queues[q].owner == Some(0) && 0 in p.hub.clients)
  {
    var qid, _ := TwoIds();
    var p0 := IdleCreator(qid);
    var p := SweptAway(p0, qid);
    HubInvIsIndexed(p.hub, p.birth);
    var s := Subscribing(1, qid, Drawing(qid));
    assert Open(p.hub.chans[1]);
    assert Mailbox.Stale(p.hub, qid) && Mailbox.Visible(p, s) && Enabled(p, s);
  }

  // ---- a role that outlives its connection ----

  /** 0 creates one queue, 1 creates another and subscribes to the first. */
  lemma OwnerSubscribes(first: string, second: string) returns (p: Process)
    requires ClientValidQID(first) && ClientValidQID(second) && ValidQueueID(first) && first != second
    ensures Calm(p, 3, map[first := Entry(Some(0), Some(1)), second := Entry(Some(1), None)])
  {
    var both := map[first := Entry(Some(0), None), second := Entry(Some(1), None)];
    var p0 := TwoOwners(first, second);
    p := SubscribedTo(p0, both, first, map[first := Entry(Some(0), Some(1)), second := Entry(Some(1), None)]);
  }

  lemma TwoOwners(first: string, second: string) returns (p: Process)
    requires ClientValidQID(first) && ClientValidQID(second) && first != second
    ensures Calm(p, 3, map[first := Entry(Some(0), None), second := Entry(Some(1), None)])
  {
    p := ThreeConnections();
    QueueCreated(p, 3, map[], 0, first);
    p := Apply(p, Creating(0, first));
    var one := map[first := Entry(Some(0), None)];
    assert Calm(p, 3, one);
    QueueCreated(p, 3, one, 1, second);
    p := Apply(p, Creating(1, second));
    assert one[second := Entry(Some(1), None)] == map[first := Entry(Some(0), None), second := Entry(Some(1), None)];
  }

  lemma KickedOwner() returns (p: Process, q: string)
    ensures Guarantees.Reachable(p) && q in p.hub.queues && Eviction.Within(p.hub.queues[q].owner, p.hub.kicked)
  {
    var first, second := TwoIds();
    var p0 := OwnerSubscribes(first, second);
    CalmIsIndexed(p0, 3, map[first := Entry(Some(0), Some(1)), second := Entry(Some(1), None)]);
    Guarantees.TakeOverStep(p0, 2, 1, first, Drawing(first));
    StaysReachable(p0, Subscribing(2, first, Drawing(first)));
    p, q := Apply(p0, Subscribing(2, first, Drawing(first))), second;
    assert Referenced(p.hub, p.hub.queues[second]);
  }

  /** Then everybody leaves, and the table is still not empty. */
  lemma KickedOwnerOutlivesEverybody()
    ensures exists p, ss, p' :: Guarantees.Reachable(p) && Eviction.Empties(p, ss, p') && p'.hub.queues != map[]
  {
    var p, q := KickedOwner();
    Guarantees.ReachableIsSound(p);
    var ss, p' := Eviction.EverybodyCanLeave(p);
    assert Eviction.Names(p.hub.queues, p.hub.kicked);
    Eviction.RestartIsEverybodyLeavingUnlessKicked(p, ss, p');
  }

  // ---- with shipped clients ----

  /** 1 creates its outbox, reads the answer, and subscribes to the queue of 0. */
  lemma PeerJoins(first: string, second: string) returns (w: World.World)
    requires ClientValidQID(first) && ClientValidQID(second) && ValidQueueID(first) && first != second
    ensures Quiet(w, map[first := Entry(Some(0), Some(1)), second := Entry(Some(1), None)]) && |w.sessions| == 2
  {
    var both := map[first := Entry(Some(0), None), second := Entry(Some(1), None)];
    var w1 := TwoFounders(first, second);
    var w2 := PeerAsks(w1, both, first, second);
    w := PeerServed(w2, both, first);
    assert both[first := Entry(Some(0), Some(1))]
        == map[first := Entry(Some(0), Some(1)), second := Entry(Some(1), None)];
  }

  lemma TwoFounders(first: string, second: string) returns (w: World.World)
    requires ClientValidQID(first) && ClientValidQID(second) && first != second
    ensures Quiet(w, map[first := Entry(Some(0), None), second := Entry(Some(1), None)]) && |w.sessions| == 2
    ensures w.sessions[1] == NEW_SESSION.(phase := WaitNewOk) && w.p.hub.chans[1].hist == [NewOk(second)]
  {
    var one := map[first := Entry(Some(0), None)];
    var w0 := FirstSession(first);
    w := Founding(w0, one, second);
    assert one[second := Entry(Some(1), None)] == map[first := Entry(Some(0), None), second := Entry(Some(1), None)];
    assert Push(NEW_CHAN, NewOk(second)).hist == [NewOk(second)];
  }

  lemma PeerAsks(w: World.World, queues: map<string, Entry>, first: string, second: string) returns (w': World.World)
    requires Quiet(w, queues) && |w.sessions| == 2 && w.sessions[1] == NEW_SESSION.(phase := WaitNewOk)
    requires w.p.hub.chans[1].hist == [NewOk(second)] && ClientValidQID(second) && ValidQueueID(first)
    ensures Quiet(w', queues) && |w'.sessions| == 2
    ensures w'.sessions[1].up == [SubCommand(first)] && w'.sessions[1].wired == 1
  {
    var w1 := Popped(w, queues, 1);
    assert second != "";
    Alone(w1, queues, World.Receive(1));
    var w2 := World.Moved(w1, World.Receive(1));
    Alone(w2, queues, World.AskSub(1, first));
    w' := World.Moved(w2, World.AskSub(1, first));
    assert w'.sessions[1].up == [SubCommand(first)];
  }

  lemma PeerServed(w: World.World, queues: map<string, Entry>, qid: string) returns (w': World.World)
    requires Quiet(w, queues) && |w.sessions| == 2 && w.sessions[1].up == [SubCommand(qid)] && w.sessions[1].wired == 1
    requires ClientValidQID(qid) && ValidQueueID(qid) && qid in queues && queues[qid] == Entry(Some(0), None)
    ensures Quiet(w', queues[qid := Entry(Some(0), Some(1))]) && |w'.sessions| == 2
  {
    QueueSubscribed(w.p, 2, queues, 1, qid);
    w' := World.Moved(w, World.Serve(1, Drawing(qid)));
    WorldStays(w, World.Serve(1, Drawing(qid)));
  }

  /** Shipped clients alone, from the first start: 2 takes over the queue that 1 reads, and
      1 stays the owner of its outbox for as long as the server lives. */
  lemma ShippedOwnerIsKicked()
    ensures exists w: World.World :: EndToEnd.Reachable(w) && Eviction.Names(w.p.hub.queues, w.p.hub.kicked)
  {
    var first, second := TwoIds();
    var queues := map[first := Entry(Some(0), Some(1)), second := Entry(Some(1), None)];
    var w0 := PeerJoins(first, second);
    var w := Joining(w0, queues, first);
    CalmIsIndexed(w.p, 3, queues);
    assert w.sessions[2] == Asking(first);
    Guarantees.TakeOverStep(w.p, 2, 1, first, Drawing(first));
    WorldStays(w, World.Serve(2, Drawing(first)));
    var w' := World.Moved(w, World.Serve(2, Drawing(first)));
    assert w'.p == Apply(w.p, Subscribing(2, first, Drawing(first)));
    assert Referenced(w'.p.hub, w'.p.hub.queues[second]);
    assert Eviction.Within(w'.p.hub.queues[second].owner, w'.p.hub.kicked);
  }
}
