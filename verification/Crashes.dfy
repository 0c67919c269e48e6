/** The crashes that Guarantees and EndToEnd describe do occur: runs from the first start. */
module Crashes {
  import opened Ids
  import opened Frames
  import opened Channel
  import opened Relay
  import opened Steps
  import opened Invariants
  import Guarantees
  import opened Chat
  import World
  import WorldProofs
  import EndToEnd

  lemma {:induction false} OneMoreStep(p: Process, ss: seq<Step>, p': Process, s: Step)
    requires Runs(p, ss, p') && Enabled(p', s)
    ensures Runs(p, ss + [s], Apply(p', s))
    decreases ss
  {
    if ss == [] {
      assert Runs(Apply(p', s), [s][1..], Apply(p', s));
      assert ss + [s] == [s];
    } else {
      OneMoreStep(Apply(p, ss[0]), ss[1..], p', s);
      assert (ss + [s])[0] == ss[0] && (ss + [s])[1..] == ss[1..] + [s];
    }
  }

  lemma StaysReachable(p: Process, s: Step)
    requires Guarantees.Reachable(p) && Enabled(p, s)
    ensures Guarantees.Reachable(Apply(p, s))
  {
    var ss :| Runs(START, ss, p);
    OneMoreStep(START, ss, p, s);
  }

  function Drawing(id: string): Oracle {
    Oracle(id, false, false, false, false, [])
  }

  /** Everybody still connected, nothing stored but queues. */
  ghost predicate Calm(p: Process, n: nat, queues: map<string, Entry>) {
    && Guarantees.Reachable(p) && p.birth == 0 && |p.hub.chans| == n
    && p.hub.clients == p.readers && (forall c: Conn :: c < n <==> c in p.hub.clients)
    && p.hub.queues == queues && p.hub.vault.db.rows == []
    && (forall q :: q in queues ==> q in p.hub.vault.db.queues)
  }

  lemma CalmIsIndexed(p: Process, n: nat, queues: map<string, Entry>)
    requires Calm(p, n, queues)
    ensures ProcessInv(p) && Indexed(p.hub)
  {
    Guarantees.ReachableIsSound(p);
    HubInvIsIndexed(p.hub, p.birth);
  }

  lemma Connecting(p: Process, n: nat, queues: map<string, Entry>)
    requires Calm(p, n, queues)
    ensures Enabled(p, Connect) && Calm(Apply(p, Connect), n + 1, queues)
  {
    CalmIsIndexed(p, n, queues);
    StaysReachable(p, Connect);
  }

  function Creating(c: Conn, qid: string): Step {
    Incoming(c, Wire(NewCommand()), Drawing(qid))
  }

  lemma QueueCreated(p: Process, n: nat, queues: map<string, Entry>, c: Conn, qid: string)
    requires Calm(p, n, queues) && c < n && ClientValidQID(qid)
    ensures Enabled(p, Creating(c, qid)) && Calm(Apply(p, Creating(c, qid)), n, queues[qid := Entry(Some(c), None)])
  {
    CalmIsIndexed(p, n, queues);
    StaysReachable(p, Creating(c, qid));
  }

  lemma QueueSubscribed(p: Process, n: nat, queues: map<string, Entry>, c: Conn, qid: string)
    requires Calm(p, n, queues) && c < n && ValidQueueID(qid) && ClientValidQID(qid)
    requires qid in queues && queues[qid].owner != Some(c) && queues[qid].sub == None
    ensures Enabled(p, Subscribing(c, qid, Drawing(qid)))
    ensures Calm(Apply(p, Subscribing(c, qid, Drawing(qid))), n, queues[qid := queues[qid].(sub := Some(c))])
  {
    CalmIsIndexed(p, n, queues);
    Guarantees.SubCrashes(p.hub, p.birth, c, qid, p.now, Drawing(qid));
    StaysReachable(p, Subscribing(c, qid, Drawing(qid)));
  }

  lemma TwoIds() returns (a: string, b: string)
    ensures ClientValidQID(a) && ClientValidQID(b) && ValidQueueID(a) && ValidQueueID(b) && a != b
  {
    var zeros: seq<Byte> := seq(16, _ => 0);
    var ones: seq<Byte> := seq(16, _ => 1);
    NewIDPassesBothChecks(zeros);
    NewIDPassesBothChecks(ones);
    assert zeros[0] != ones[0];
    a, b := NewID(zeros), NewID(ones);
  }

  lemma TwoQueues(first: string, second: string) returns (p: Process)
    requires ClientValidQID(first) && ClientValidQID(second) && ValidQueueID(first) && ValidQueueID(second)
    requires first != second
    ensures Calm(p, 3, map[first := Entry(Some(0), Some(1)), second := Entry(Some(0), Some(1))])
  {
    p := ThreeConnections();
    QueueCreated(p, 3, map[], 0, first);
    p := Apply(p, Creating(0, first));
    QueueCreated(p, 3, map[first := Entry(Some(0), None)], 0, second);
    p := Apply(p, Creating(0, second));
    var both := map[first := Entry(Some(0), None), second := Entry(Some(0), None)];
    assert Calm(p, 3, both);
    p := BothSubscribed(p, both, first, second);
  }

  lemma ThreeConnections() returns (p: Process)
    ensures Calm(p, 3, map[])
  {
    assert Runs(START, [], START);
    Connecting(START, 0, map[]);
    p := Apply(START, Connect);
    Connecting(p, 1, map[]);
    p := Apply(p, Connect);
    Connecting(p, 2, map[]);
    p := Apply(p, Connect);
  }

  lemma BothSubscribed(p0: Process, both: map<string, Entry>, first: string, second: string) returns (p: Process)
    requires ClientValidQID(first) && ClientValidQID(second) && ValidQueueID(first) && ValidQueueID(second)
    requires first != second
    requires both == map[first := Entry(Some(0), None), second := Entry(Some(0), None)] && Calm(p0, 3, both)
    ensures Calm(p, 3, map[first := Entry(Some(0), Some(1)), second := Entry(Some(0), Some(1))])
  {
    var one := map[first := Entry(Some(0), Some(1)), second := Entry(Some(0), None)];
    p := SubscribedTo(p0, both, first, one);
    p := SubscribedTo(p, one, second, map[first := Entry(Some(0), Some(1)), second := Entry(Some(0), Some(1))]);
  }

  lemma SubscribedTo(p: Process, queues: map<string, Entry>, qid: string, queues': map<string, Entry>)
    returns (p': Process)
    requires Calm(p, 3, queues) && ClientValidQID(qid) && ValidQueueID(qid) && qid in queues
    requires queues[qid] == Entry(Some(0), None) && queues' == queues[qid := Entry(Some(0), Some(1))]
    ensures Calm(p', 3, queues')
  {
    QueueSubscribed(p, 3, queues, 1, qid);
    p' := Apply(p, Subscribing(1, qid, Drawing(qid)));
  }

  /** From the first start: 0 creates two queues, 1 subscribes to both, 2 takes over the
      first and sends to the second. All are connected, all ids well-formed. */
  lemma KickedSubscriberIsReachable()
    ensures exists p, c, m, o ::
      && Guarantees.Reachable(p) && Enabled(p, Incoming(c, m, o)) && c in p.hub.clients
      && Read(p.hub, c, m, p.now, o).Crashed?
  {
    var first, second := TwoIds();
    var p := TwoQueues(first, second);
    var env := Envelope(SEND, second, first, Chat("hi"));
    Guarantees.ReachableIsSound(p);
    Guarantees.KickedSubscriberCrashesTheServer(p, 2, 1, first, second, env, Drawing(first), Drawing(first));
    StaysReachable(p, Subscribing(2, first, Drawing(first)));
  }

  /** From the first start: the first connection acknowledges the empty id. */
  lemma ShortIdIsReachable()
    ensures exists p, c, m, o ::
      && Guarantees.Reachable(p) && Enabled(p, Incoming(c, m, o)) && c in p.hub.clients
      && Read(p.hub, c, m, p.now, o).Crashed?
  {
    assert Runs(START, [], START);
    Connecting(START, 0, map[]);
    var p := Apply(START, Connect);
    var id, _ := TwoIds();
    CalmIsIndexed(p, 1, map[]);
    assert Enabled(p, Incoming(0, Wire(AckCommand("", "")), Drawing(id)));
    assert Read(p.hub, 0, Wire(AckCommand("", "")), p.now, Drawing(id)).Crashed?;
  }

  // ---- shipped clients ----

  lemma WorldStays(w: World.World, m: World.Move)
    requires EndToEnd.Reachable(w) && World.Allowed(w, m)
    ensures EndToEnd.Reachable(World.Moved(w, m))
  {
    var ms :| World.Moves(World.GENESIS, ms, w);
    WorldProofs.OneMove(w, m);
    WorldProofs.MovesAppend(World.GENESIS, ms, w, [m], World.Moved(w, m));
  }

  /** A calm world. */
  ghost predicate Quiet(w: World.World, queues: map<string, Entry>) {
    EndToEnd.Reachable(w) && Calm(w.p, |w.sessions|, queues)
  }

  /** A move of a session alone. */
  lemma Alone(w: World.World, queues: map<string, Entry>, m: World.Move)
    requires Quiet(w, queues) && !m.Dial? && !m.Serve? && !m.DieServing? && !m.Server?
    requires Indexed(w.p.hub) ==> World.Allowed(w, m)
    ensures World.Allowed(w, m) && Quiet(World.Moved(w, m), queues) && World.Moved(w, m).p == w.p
  {
    CalmIsIndexed(w.p, |w.sessions|, queues);
    WorldStays(w, m);
  }

  lemma Dialling(w: World.World, queues: map<string, Entry>)
    requires Quiet(w, queues)
    ensures World.Allowed(w, World.Dial) && Quiet(World.Moved(w, World.Dial), queues)
  {
    CalmIsIndexed(w.p, |w.sessions|, queues);
    Connecting(w.p, |w.sessions|, queues);
    WorldStays(w, World.Dial);
  }

  function Asking(qid: string): Session {
    NEW_SESSION.(phase := WaitSubOk, outbox := qid, inbox := qid, up := [SubCommand(qid)], wired := 1)
  }

  /** One more session dials and asks for qid. */
  lemma Joining(w: World.World, queues: map<string, Entry>, qid: string) returns (w': World.World)
    requires Quiet(w, queues) && ClientValidQID(qid) && ValidQueueID(qid)
    ensures Quiet(w', queues) && w'.sessions == w.sessions + [Asking(qid)] && w'.used == w.used
    ensures w'.p.hub.chans == w.p.hub.chans + [NEW_CHAN]
  {
    var n := |w.sessions|;
    Dialling(w, queues);
    var w1 := World.Moved(w, World.Dial);
    assert w1.sessions == w.sessions + [NEW_SESSION];
    Alone(w1, queues, World.PickOutbox(n, qid));
    var w2 := World.Moved(w1, World.PickOutbox(n, qid));
    assert w2.sessions == w.sessions + [NEW_SESSION.(phase := HaveOutbox, outbox := qid)];
    Alone(w2, queues, World.AskSub(n, qid));
    w' := World.Moved(w2, World.AskSub(n, qid));
    assert w'.sessions[n] == Asking(qid) by { assert w'.sessions[n].up == [SubCommand(qid)]; }
  }

  /** One more session dials and creates a queue. */
  lemma Founding(w: World.World, queues: map<string, Entry>, qid: string) returns (w': World.World)
    requires Quiet(w, queues) && ClientValidQID(qid)
    ensures Quiet(w', queues[qid := Entry(Some(|w.sessions|), None)]) && w'.used == w.used
    ensures w'.sessions == w.sessions + [NEW_SESSION.(phase := WaitNewOk)]
    ensures w'.p.hub.chans == w.p.hub.chans + [Push(NEW_CHAN, NewOk(qid))]
  {
    var n := |w.sessions|;
    Dialling(w, queues);
    var w1 := World.Moved(w, World.Dial);
    Alone(w1, queues, World.AskNew(n));
    var w2 := World.Moved(w1, World.AskNew(n));
    assert w2.sessions == w.sessions + [w2.sessions[n]] && w2.sessions[n].up == [NewCommand()];
    w' := Founded(w2, queues, n, qid);
    assert w'.sessions[n].up == [];
    assert w2.p.hub.chans == w.p.hub.chans + [NEW_CHAN];
  }

  lemma Founded(w: World.World, queues: map<string, Entry>, c: Conn, qid: string) returns (w': World.World)
    requires Quiet(w, queues) && c < |w.sessions| && w.sessions[c].up == [NewCommand()] && w.sessions[c].wired == 1
    requires ClientValidQID(qid) && w.p.hub.chans[c] == NEW_CHAN
    ensures Quiet(w', queues[qid := Entry(Some(c), None)]) && w'.used == w.used
    ensures w'.sessions == w.sessions[c := Taken(w.sessions[c])]
    ensures w'.p.hub.chans == w.p.hub.chans[c := Push(NEW_CHAN, NewOk(qid))]
  {
    QueueCreated(w.p, |w.sessions|, queues, c, qid);
    WorldStays(w, World.Serve(c, Drawing(qid)));
    w' := World.Moved(w, World.Serve(c, Drawing(qid)));
  }

  lemma FirstSession(qid: string) returns (w: World.World)
    requires ClientValidQID(qid)
    ensures Quiet(w, map[qid := Entry(Some(0), None)]) && |w.sessions| == 1 && w.used == {}
  {
    assert World.Moves(World.GENESIS, [], World.GENESIS) && Runs(START, [], START);
    w := Founding(World.GENESIS, map[], qid);
    assert map[][qid := Entry(Some(0), None)] == map[qid := Entry(Some(0), None)];
  }

  /** The second one subscribes to it. */
  lemma SecondSession(qid: string) returns (w: World.World)
    requires ClientValidQID(qid) && ValidQueueID(qid)
    ensures Quiet(w, map[qid := Entry(Some(0), Some(1))]) && |w.sessions| == 2 && w.used == {}
    ensures w.sessions[1] == Asking(qid).(up := [], wired := 0, replyAt := Some(0))
  {
    var queues := map[qid := Entry(Some(0), None)];
    var w0 := FirstSession(qid);
    var w1 := Joining(w0, queues, qid);
    assert w1.sessions[1] == Asking(qid);
    w := BeingSubscribed(w1, queues, qid);
    assert queues[qid := Entry(Some(0), Some(1))] == map[qid := Entry(Some(0), Some(1))];
  }

  lemma BeingSubscribed(w: World.World, queues: map<string, Entry>, qid: string) returns (w': World.World)
    requires Quiet(w, queues) && |w.sessions| == 2 && w.sessions[1] == Asking(qid) && w.p.hub.chans[1].hist == []
    requires ClientValidQID(qid) && ValidQueueID(qid) && qid in queues && queues[qid] == Entry(Some(0), None)
    ensures Quiet(w', queues[qid := Entry(Some(0), Some(1))]) && w'.used == w.used && |w'.sessions| == 2
    ensures w'.sessions[1] == Asking(qid).(up := [], wired := 0, replyAt := Some(0))
  {
    QueueSubscribed(w.p, 2, queues, 1, qid);
    w' := World.Moved(w, World.Serve(1, Drawing(qid)));
    WorldStays(w, World.Serve(1, Drawing(qid)));
  }

  /** It reads SUB_OK, and types a line that stays on the wire. */
  lemma Typed(w: World.World, queues: map<string, Entry>, qid: string, mid: string) returns (w': World.World)
    requires Quiet(w, queues) && |w.sessions| == 2 && w.used == {} && ClientValidQID(mid)
    requires w.sessions[1] == Asking(qid).(up := [], wired := 0, replyAt := Some(0))
    requires w.p.hub.chans[1].hist != [] && w.p.hub.chans[1].hist[0] == SubOk(qid)
    ensures Quiet(w', queues) && |w'.sessions| == 2
    ensures w'.sessions[1].up == [SendCommand(qid, mid, "hi")] && w'.sessions[1].wired == 1
    ensures w'.sessions[1].inbox == qid
  {
    var w1 := Popped(w, queues, 1);
    Alone(w1, queues, World.Receive(1));
    var w2 := World.Moved(w1, World.Receive(1));
    Alone(w2, queues, World.Type(1, mid, "hi"));
    var w3 := World.Moved(w2, World.Type(1, mid, "hi"));
    assert w3.sessions[1].up == [SendCommand(qid, mid, "hi")];
    Alone(w3, queues, World.WireUp(1));
    w' := World.Moved(w3, World.WireUp(1));
  }

  lemma Popped(w: World.World, queues: map<string, Entry>, c: Conn) returns (w': World.World)
    requires Quiet(w, queues) && c < |w.sessions| && w.p.hub.chans[c].hist != []
    ensures Quiet(w', queues) && w'.sessions == w.sessions && w'.used == w.used
    ensures w'.p.hub.chans[c].hist == w.p.hub.chans[c].hist && 0 < w'.p.hub.chans[c].popped <= |w'.p.hub.chans[c].hist|
  {
    CalmIsIndexed(w.p, |w.sessions|, queues);
    StaysReachable(w.p, Pop(c));
    WorldStays(w, World.Server(Pop(c)));
    w' := World.Moved(w, World.Server(Pop(c)));
  }

  /** From the first start, with shipped clients only: 0 creates a queue, 1 subscribes and
      types a line, 2 takes the queue over, and the server reads the line. */
  lemma TakeOverIsReachable()
    ensures exists w: World.World, c: Conn, o ::
      && EndToEnd.Reachable(w) && World.Allowed(w, World.Serve(c, o))
      && Read(w.p.hub, c, Wire(w.sessions[c].up[0]), w.p.now, o).Crashed?
  {
    var qid, mid := TwoIds();
    var queues := map[qid := Entry(Some(0), Some(1))];
    var w := SecondSession(qid);
    AnswerIsFirst(w, qid);
    w := Typed(w, queues, qid, mid);
    var w' := Joining(w, queues, qid);
    CalmIsIndexed(w'.p, 3, queues);
    assert w'.sessions[1] == w.sessions[1] && w'.sessions[2] == Asking(qid);
    EndToEnd.TakeOverCrashes(w', 1, 2, Drawing(qid), Drawing(qid));
    WorldStays(w', World.Serve(2, Drawing(qid)));
  }

  lemma AnswerIsFirst(w: World.World, qid: string)
    requires EndToEnd.Reachable(w) && |w.sessions| == 2 && w.sessions[1].replyAt == Some(0)
    requires qid in w.p.hub.queues && w.p.hub.queues[qid].sub == Some(1)
    ensures |w.p.hub.chans| == 2 && w.p.hub.chans[1].hist != [] && w.p.hub.chans[1].hist[0] == SubOk(qid)
  {
    EndToEnd.ReachableIsSound(w);
    assert World.Subscribed(w, 1, qid) && World.ConnInv(w, 1);
  }
}
