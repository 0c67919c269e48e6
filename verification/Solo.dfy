/** One session of the shipped client among arbitrary others. Its connection carries what
    client/session.go and client/pumps.go write; everybody else, and the server, may do
    anything Steps allows. */
module Solo {
  import opened Ids
  import opened Frames
  import opened Channel
  import opened Relay
  import opened Steps
  import opened Invariants
  import opened Chat
  import opened Order
  import World
  import WorldProofs
  import ServeProofs
  import Tables
  import Ledger

  datatype Solo = Solo(p: Process, c: Conn, s: Session)

  datatype Act =
    | Other(step: Step)                             // anybody else, or the server
    | AskNew | PickOutbox(qid: string) | AskSub(qid: string)
    | Receive | PushAck | Type(mid: string, text: string) | WireUp | Quit
    | Serve(o: Oracle)                              // the server reads one command of the session
    | DieServing(o: Oracle, stage: nat)             // and its process ends at a given stage

  predicate Foreign(s: Step, c: Conn) {
    !((s.Incoming? || s.Die?) && s.c == c)
  }

  ghost predicate May(x: Solo, a: Act) {
    && x.c < |x.p.hub.chans|
    && var s, ch := x.s, x.p.hub.chans[x.c];
       match a
       case Other(step) => Foreign(step, x.c) && Enabled(x.p, step)
       case AskNew => s.phase == Dialled
       case PickOutbox(qid) => s.phase == Dialled && ClientValidQID(qid)
       case AskSub(qid) => s.phase == HaveOutbox && ValidQueueID(qid)
       case Receive =>
         && (StartingUp(s) || (s.phase == Chatting && s.pending.None?))
         && s.recvd < ch.popped <= |ch.hist|
       case PushAck => s.pending.Some? && HasRoom(s)
       case Type(_, _) => s.phase == Chatting
       case WireUp => s.wired < |s.up|
       case Quit => true
       case Serve(o) => 0 < s.wired <= |s.up| && Enabled(x.p, Incoming(x.c, Wire(s.up[0]), o))
       case DieServing(o, stage) => 0 < s.wired <= |s.up| && Enabled(x.p, Die(x.c, s.up[0], o, stage))
  }

  /** After step, which took the session's first command. */
  function Served(x: Solo, step: Step): Solo
    requires x.c < |x.p.hub.chans| && 0 < x.s.wired && x.s.up != [] && Enabled(x.p, step)
  {
    var p' := Apply(x.p, step);
    var after := if x.c < |p'.hub.chans| then |p'.hub.chans[x.c].hist| else 0;
    x.(p := p', s := Heard(x.s, |x.p.hub.chans[x.c].hist|, after))
  }

  function Do(x: Solo, a: Act): Solo
    requires May(x, a)
  {
    var s := x.s;
    match a
    case Other(step) => x.(p := Apply(x.p, step))
    case AskNew => x.(s := Asked(s, WaitNewOk, NewCommand()))
    case PickOutbox(qid) => x.(s := s.(phase := HaveOutbox, outbox := qid))
    case AskSub(qid) => x.(s := Asked(s.(inbox := qid), WaitSubOk, SubCommand(qid)))
    case Receive => x.(s := Received(s, x.p.hub.chans[x.c].hist[s.recvd]))
    case PushAck => x.(s := AckPushed(s))
    case Type(mid, text) => x.(s := Typed(s, mid, text))
    case WireUp => x.(s := s.(wired := s.wired + 1))
    case Quit => x.(s := s.(phase := Ended))
    case Serve(o) => Served(x, Incoming(x.c, Wire(s.up[0]), o))
    case DieServing(o, stage) => Served(x, Die(x.c, s.up[0], o, stage))
  }

  ghost predicate Runs(x: Solo, acts: seq<Act>, x': Solo)
    decreases acts
  {
    if acts == [] then x' == x else May(x, acts[0]) && Runs(Do(x, acts[0]), acts[1..], x')
  }

  /** A session dials a server in state p. */
  function Dialling(p: Process): Solo
    requires Enabled(p, Connect)
  {
    Solo(Apply(p, Connect), |p.hub.chans|, NEW_SESSION)
  }

  // ---- what the session has read ----

  predicate Shows(f: Frame, l: Line) {
    f.Deliver? && f.mid == l.mid && f.payload == Chat(l.text)
  }

  /** ks says which frames the lines displayed came from. */
  ghost predicate ShownFrom(hist: seq<Frame>, s: Session, ks: seq<nat>) {
    && |ks| == |s.shown|
    && (forall i :: 0 <= i < |ks| ==> ks[i] < s.recvd && ks[i] < |hist| && Shows(hist[ks[i]], s.shown[i]))
    && (forall i, j :: 0 <= i < j < |ks| ==> ks[i] < ks[j])
  }

  /** Some DELIVER of mid was received that cannot be decoded. */
  ghost predicate Garbled(hist: seq<Frame>, s: Session, mid: string) {
    exists i :: 0 <= i < s.recvd && i < |hist| && hist[i].Deliver? && hist[i].mid == mid && !hist[i].payload.Chat?
  }

  /** The display: lines come from frames received, in their order, each id once; every id
      received was seen, and displayed unless it was garbled. */
  ghost predicate Shown(hist: seq<Frame>, s: Session) {
    && s.recvd <= |hist|
    && (exists ks :: ShownFrom(hist, s, ks))
    && (forall i :: 0 <= i < |s.shown| ==> s.shown[i].mid in s.seen)
    && (forall i, j :: 0 <= i < j < |s.shown| ==> s.shown[i].mid != s.shown[j].mid)
    && (forall i :: 0 <= i < s.recvd && hist[i].Deliver? ==> hist[i].mid in s.seen)
    && (forall m :: m in s.seen ==> World.ShownIn(s, m) || Garbled(hist, s, m))
  }

  // ---- the invariant ----

  ghost predicate Talking(s: Session) {
    forall i :: 0 <= i < |s.up| ==> s.up[i].kind == SEND || s.up[i].kind == ACK
  }

  /** What is on its way to the server, as long as somebody reads it there. */
  ghost predicate Upstream(hist: seq<Frame>, s: Session) {
    && s.wired <= |s.up|
    && (s.pending.Some? ==> s.replyAt.Some? && s.pending.value.kind == ACK)
    && match s.replyAt
       case None =>
         && (s.phase == Dialled || s.phase == HaveOutbox ==> s.up == [])
         && (s.phase == WaitNewOk ==> s.up == [] || s.up == [NewCommand()])
         && (s.phase == WaitSubOk ==> s.up == [SubCommand(s.inbox)])
         && (s.phase == Ended ==> s.up == [] || s.up == [NewCommand()] || s.up == [SubCommand(s.inbox)])
         && (s.up == [NewCommand()] ==> hist == [])
       case Some(_) => Talking(s)
  }

  ghost predicate Subscribes(h: Hub, c: Conn) {
    exists q :: q in h.queues && h.queues[q].sub == Some(c)
  }

  /** The session and its channel, the tables and channels being those of h. */
  ghost predicate Settled(h: Hub, c: Conn, s: Session, asked: Option<string>) {
    && Lined(h, c, asked)
    && World.Started(h.chans[c].hist, s) && Shown(h.chans[c].hist, s)
    && (asked.Some? ==> asked == Some(s.inbox) && (s.phase == WaitSubOk || s.phase == Chatting || s.phase == Ended))
    && (s.replyAt.Some? ==> asked.Some?)
  }

  /** And the routing table; read: the server still reads the connection. */
  ghost predicate Sane(h: Hub, read: bool, c: Conn, s: Session, asked: Option<string>) {
    && Settled(h, c, s, asked) && Faithful(h, c, asked)
    && (Subscribes(h, c) ==> s.replyAt.Some? && h.chans[c].hist[s.replyAt.value].SubOk?)
    && (read ==> Upstream(h.chans[c].hist, s) && (s.replyAt.None? ==> asked.None? && c in h.clients))
  }

  ghost predicate Inv(x: Solo, asked: Option<string>) {
    ProcessInv(x.p) && Sane(x.p.hub, x.c in x.p.readers, x.c, x.s, asked)
  }

  lemma DiallingIsSound(p: Process)
    requires ProcessInv(p) && Enabled(p, Connect)
    ensures Inv(Dialling(p), None)
  {
    var x := Dialling(p);
    StepKeeps(p, Connect);
    NewcomersAreWatched(p, x.c);
    StepWatched(p, Connect, x.c, None);
    HubInvIsIndexed(p.hub, p.birth);
    assert ShownFrom([], NEW_SESSION, []);
  }

  // ---- what the session does alone ----

  lemma ShownStays(hist: seq<Frame>, hist': seq<Frame>, s: Session, s': Session)
    requires Shown(hist, s) && hist <= hist'
    requires s'.recvd == s.recvd && s'.seen == s.seen && s'.shown == s.shown
    ensures Shown(hist', s')
  {
    var ks :| ShownFrom(hist, s, ks);
    assert ShownFrom(hist', s', ks);
    forall m | m in s'.seen ensures World.ShownIn(s', m) || Garbled(hist', s', m) {
      if World.ShownIn(s, m) {
        var i :| 0 <= i < |s.shown| && s.shown[i].mid == m;
        assert s'.shown[i].mid == m;
      } else {
        var i :| 0 <= i < s.recvd && i < |hist| && hist[i].Deliver? && hist[i].mid == m && !hist[i].payload.Chat?;
        assert hist'[i] == hist[i];
      }
    }
  }

  lemma ReceiveShown(hist: seq<Frame>, s: Session)
    requires Shown(hist, s) && s.recvd < |hist| && (s.phase == Chatting || !hist[s.recvd].Deliver?)
    ensures Shown(hist, Received(s, hist[s.recvd]))
  {
    ReceiveShownFrom(hist, s);
    ReceiveSeen(hist, s);
    ReceiveDistinct(s, hist[s.recvd]);
  }

  lemma ReceiveShownFrom(hist: seq<Frame>, s: Session)
    requires s.recvd < |hist| && exists ks :: ShownFrom(hist, s, ks)
    ensures exists ks :: ShownFrom(hist, Received(s, hist[s.recvd]), ks)
  {
    var s' := Received(s, hist[s.recvd]);
    var ks :| ShownFrom(hist, s, ks);
    if s'.shown == s.shown {
      assert ShownFrom(hist, s', ks);
    } else {
      OneMoreShown(hist, s, s', s'.shown[|s.shown|], ks);
    }
  }

  lemma OneMoreShown(hist: seq<Frame>, s: Session, s': Session, l: Line, ks: seq<nat>)
    requires ShownFrom(hist, s, ks) && s.recvd < |hist| && Shows(hist[s.recvd], l)
    requires s'.shown == s.shown + [l] && s'.recvd == s.recvd + 1
    ensures ShownFrom(hist, s', ks + [s.recvd])
  {
  }

  lemma ReceiveDistinct(s: Session, f: Frame)
    requires forall i :: 0 <= i < |s.shown| ==> s.shown[i].mid in s.seen
    requires forall i, j :: 0 <= i < j < |s.shown| ==> s.shown[i].mid != s.shown[j].mid
    ensures var s' := Received(s, f);
      && (forall i :: 0 <= i < |s'.shown| ==> s'.shown[i].mid in s'.seen)
      && (forall i, j :: 0 <= i < j < |s'.shown| ==> s'.shown[i].mid != s'.shown[j].mid)
  {
  }

  lemma ReceiveSeen(hist: seq<Frame>, s: Session)
    requires Shown(hist, s) && s.recvd < |hist|
    ensures var s' := Received(s, hist[s.recvd]);
      forall m :: m in s'.seen ==> World.ShownIn(s', m) || Garbled(hist, s', m)
  {
    var f, s' := hist[s.recvd], Received(s, hist[s.recvd]);
    forall m | m in s'.seen ensures World.ShownIn(s', m) || Garbled(hist, s', m) {
      if m in s.seen {
        if World.ShownIn(s, m) {
          var i :| 0 <= i < |s.shown| && s.shown[i].mid == m;
          assert s'.shown[i].mid == m;
        } else {
          var i :| 0 <= i < s.recvd && i < |hist| && hist[i].Deliver? && hist[i].mid == m && !hist[i].payload.Chat?;
          assert i < s'.recvd;
        }
      } else if f.payload.Chat? {
        assert s'.shown[|s.shown|].mid == m;
      } else {
        assert s.recvd < s'.recvd;
      }
    }
  }

  lemma ReceiveKeeps(x: Solo, asked: Option<string>)
    requires Inv(x, asked) && May(x, Receive)
    ensures Inv(Do(x, Receive), asked)
  {
    ReceiveSane(x.p.hub, x.c in x.p.readers, x.c, x.s, asked);
  }

  lemma ReceiveSane(h: Hub, read: bool, c: Conn, s: Session, asked: Option<string>)
    requires Sane(h, read, c, s, asked) && s.recvd < |h.chans[c].hist|
    requires StartingUp(s) || (s.phase == Chatting && s.pending.None?)
    ensures Sane(h, read, c, Received(s, h.chans[c].hist[s.recvd]), asked)
  {
    WorldProofs.ReceiveStarts(h.chans[c].hist, s);
    ReceiveShown(h.chans[c].hist, s);
  }

  /** Writing, typing, picking and quitting. */
  lemma AloneKeeps(x: Solo, a: Act, asked: Option<string>)
    requires Inv(x, asked) && May(x, a) && !a.Other? && !a.Receive? && !a.Serve? && !a.DieServing?
    ensures Inv(Do(x, a), asked)
  {
    var s', hist := Do(x, a).s, x.p.hub.chans[x.c].hist;
    ShownStays(hist, hist, x.s, s');
    if x.c in x.p.readers { AloneUpstream(x, a); }
  }

  lemma AloneUpstream(x: Solo, a: Act)
    requires May(x, a) && !a.Other? && !a.Receive? && !a.Serve? && !a.DieServing?
    requires Upstream(x.p.hub.chans[x.c].hist, x.s) && World.Started(x.p.hub.chans[x.c].hist, x.s)
    ensures Upstream(x.p.hub.chans[x.c].hist, Do(x, a).s)
  {
    var up' := Do(x, a).s.up;
    match a
    case AskNew => assert up' == [NewCommand()];
    case AskSub(qid) => assert up' == [SubCommand(qid)] && up'[0] != NewCommand();
    case _ =>
  }

  // ---- what others do ----

  /** What c is offered while others are served. */
  ghost predicate Overheard(h: Hub, g: Hub, c: Conn)
    requires c < |h.chans|
  {
    && c < |g.chans| && h.chans[c].hist <= g.chans[c].hist
    && (forall i :: |h.chans[c].hist| <= i < |g.chans[c].hist| ==> g.chans[c].hist[i].Deliver?)
    && (!Subscribes(h, c) ==> g.chans[c].hist == h.chans[c].hist)
  }

  /** The effect of others on connection c. */
  ghost predicate Apart(h: Hub, g: Hub, c: Conn)
    requires c < |h.chans|
  {
    Overheard(h, g, c) && (Subscribes(g, c) ==> Subscribes(h, c))
  }

  lemma SubApart(h: Hub, d: Conn, qid: string, now: int, o: Oracle, c: Conn)
    requires d < |h.chans| && c < |h.chans| && c != d && Known(h, Cached(h, qid).sub)
    ensures Apart(h, HandleSub(h, d, qid, now, o).hub, c)
  {
    var g := HandleSub(h, d, qid, now, o).hub;
    forall q | q in g.queues && g.queues[q].sub == Some(c) ensures q in h.queues && h.queues[q].sub == Some(c) {}
  }

  lemma SendApart(h: Hub, d: Conn, env: Envelope, now: int, o: Oracle, c: Conn)
    requires d < |h.chans| && c < |h.chans| && c != d && Known(h, Cached(h, env.qid).sub)
    ensures Apart(h, HandleSend(h, d, env, now, o).hub, c)
  {
    var qid, mid, e := env.qid, MessageId(env, o), Cached(h, env.qid);
    if e.sub == Some(c) { assert qid in h.queues; }
    if Accepts(h, env, o) {
      var h2 := h.(queues := h.queues[qid := e],
        vault := Ledger.Touch(Ledger.Accept(h.vault, mid, qid, env.payload, now), qid, now));
      assert HandleSend(h, d, env, now, o) == Forward(h2, d, e.sub, qid, mid, env.payload, o);
      ForwardApart(h2, d, e.sub, qid, mid, env.payload, o, c);
    }
  }

  lemma ForwardApart(h: Hub, d: Conn, sub: Option<Conn>, qid: string, mid: string, payload: Payload, o: Oracle, c: Conn)
    requires d < |h.chans| && c < |h.chans| && c != d && Known(h, sub)
    ensures var g := Forward(h, d, sub, qid, mid, payload, o).hub;
      && g.queues == h.queues && |g.chans| == |h.chans|
      && (g.chans[c].hist == h.chans[c].hist
          || (sub == Some(c) && g.chans[c].hist == h.chans[c].hist + [Deliver(qid, mid, payload)]))
  {
  }

  lemma ReadApart(h: Hub, d: Conn, m: Message, now: int, o: Oracle, c: Conn)
    requires Indexed(h) && d < |h.chans| && c < |h.chans| && c != d
    ensures Apart(h, Read(h, d, m, now, o).hub, c)
  {
    if Parse(m).Some? {
      var env := Parse(m).value;
      match env.kind
      case SUB => SubApart(h, d, env.qid, now, o, c);
      case SEND => SendApart(h, d, env, now, o, c);
      case _ =>
    }
  }

  lemma BetweenApart(h: Hub, d: Conn, env: Envelope, now: int, o: Oracle, i: nat, c: Conn)
    requires Indexed(h) && d < |h.chans| && c < |h.chans| && c != d && i < |Between(h, d, env, now, o)|
    ensures Overheard(h, Between(h, d, env, now, o)[i], c)
  {
    if i > 0 {
      match env.kind
      case SUB => SubBetweenAt(h, d, env, now, o, i);
      case SEND =>
        SendBetweenAt(h, d, env, now, o, i);
        if Cached(h, env.qid).sub == Some(c) { assert env.qid in h.queues; }
      case _ =>
    }
  }

  lemma StepApart(p: Process, s: Step, c: Conn)
    requires ProcessInv(p) && Enabled(p, s) && Foreign(s, c) && c < |p.hub.chans|
    ensures Apart(p.hub, Apply(p, s).hub, c) && (c in Apply(p, s).readers ==> c in p.readers)
  {
    match s
    case Incoming(d, m, o) => ReadApart(p.hub, d, m, p.now, o, c);
    case Die(d, env, o, stage) =>
      if stage < |Between(p.hub, d, env, p.now, o)| {
        BetweenApart(p.hub, d, env, p.now, o, stage, c);
      } else {
        ReadApart(p.hub, d, Wire(env), p.now, o, c);
      }
    case Disconnect(d) => LeavingApart(p.hub, d, c);
    case _ =>
  }

  lemma LeavingApart(h: Hub, d: Conn, c: Conn)
    requires d < |h.chans| && c < |h.chans|
    ensures Apart(h, Unregister(h, d), c)
  {
    var g := Unregister(h, d);
    forall q | q in g.queues && g.queues[q].sub == Some(c) ensures q in h.queues && h.queues[q].sub == Some(c) {}
  }

  lemma OtherKeeps(x: Solo, step: Step, asked: Option<string>)
    requires Inv(x, asked) && May(x, Other(step))
    ensures Inv(Do(x, Other(step)), asked)
  {
    var p' := Apply(x.p, step);
    StepKeeps(x.p, step);
    OtherWatched(x, step, asked);
    StepApart(x.p, step, x.c);
    ApartSane(x.p.hub, p'.hub, x.c in x.p.readers, x.c in p'.readers, x.c, x.s, asked);
  }

  lemma OtherWatched(x: Solo, step: Step, asked: Option<string>)
    requires Inv(x, asked) && May(x, Other(step))
    ensures Watched(Apply(x.p, step), x.c, asked)
  {
    assert AsksFor(step, x.c) == None;
    StepWatched(x.p, step, x.c, asked);
  }

  lemma ApartSane(h: Hub, g: Hub, read: bool, read': bool, c: Conn, s: Session, asked: Option<string>)
    requires Sane(h, read, c, s, asked) && Apart(h, g, c) && Lined(g, c, asked) && Faithful(g, c, asked)
    requires read' ==> read && (asked.None? ==> c in g.clients)
    ensures Sane(g, read', c, s, asked)
  {
    ShownStays(h.chans[c].hist, g.chans[c].hist, s, s);
  }

  // ---- what the server does with the session's commands ----

  /** Nothing new for a session that was not subscribed but answers. */
  ghost predicate OnlyAnswers(h: Hub, g: Hub, c: Conn)
    requires c < |h.chans|
  {
    && c < |g.chans| && h.chans[c].hist <= g.chans[c].hist
    && (!Subscribes(h, c) ==> forall i :: |h.chans[c].hist| <= i < |g.chans[c].hist| ==> !g.chans[c].hist[i].Deliver?)
  }

  lemma NewAnswers(h: Hub, c: Conn, now: int, o: Oracle)
    requires Indexed(h) && c < |h.chans| && Open(h.chans[c]) && Bounded(h.chans[c]) && h.chans[c].hist == []
    ensures var out := Handle(h, c, NewCommand(), now, o);
      && out.Alive? && |out.hub.chans| == |h.chans| && |out.hub.chans[c].hist| == 1
      && World.Preliminary(out.hub.chans[c].hist[0])
      && out.hub.clients == h.clients && (Subscribes(out.hub, c) ==> Subscribes(h, c))
  {
    var g := Handle(h, c, NewCommand(), now, o).hub;
    forall q | q in g.queues && g.queues[q].sub == Some(c) ensures q in h.queues && h.queues[q].sub == Some(c) {}
  }

  lemma SendAnswers(h: Hub, c: Conn, env: Envelope, now: int, o: Oracle)
    requires c < |h.chans| && Known(h, Cached(h, env.qid).sub)
    ensures var g := HandleSend(h, c, env, now, o).hub;
      && OnlyAnswers(h, g, c) && g.clients == h.clients && (Subscribes(g, c) ==> Subscribes(h, c))
  {
    var g := HandleSend(h, c, env, now, o).hub;
    ServeProofs.SendAppends(h, c, env, now, o, c);
    SendTables(h, c, env, now, o);
    forall q | q in g.queues && g.queues[q].sub == Some(c) ensures q in h.queues && h.queues[q].sub == Some(c) {}
    if Cached(h, env.qid).sub == Some(c) { assert env.qid in h.queues; }
  }

  /** A SUB over an open channel with room: SUB_OK and DELIVERs, or an error. */
  ghost predicate Replied(hist: seq<Frame>, hist': seq<Frame>, qid: string) {
    && hist <= hist' && |hist| < |hist'|
    && (if hist'[|hist|].Error? then |hist'| == |hist| + 1
        else hist'[|hist|] == SubOk(qid) && forall i :: |hist| < i < |hist'| ==> hist'[i].Deliver?)
  }

  lemma {:induction false} ReplayIsDelivers(ch: Chan, qid: string, rows: seq<Tables.Row>, o: Oracle, n: nat)
    requires n <= |rows|
    ensures var hist' := Replay(ch, qid, rows, o, n).hist;
      ch.hist <= hist' && forall i :: |ch.hist| <= i < |hist'| ==> hist'[i].Deliver?
  {
    if n > 0 { ReplayIsDelivers(ch, qid, rows, o, n - 1); }
  }

  lemma ReplayReplies(ch: Chan, qid: string, rows: seq<Tables.Row>, o: Oracle, n: nat)
    requires n <= |rows| && Room(ch)
    ensures var hist' := Replay(Push(ch, SubOk(qid)), qid, rows, o, n).hist;
      Replied(ch.hist, hist', qid) && hist'[|ch.hist|] == SubOk(qid)
  {
    ReplayIsDelivers(Push(ch, SubOk(qid)), qid, rows, o, n);
    assert Push(ch, SubOk(qid)).hist[|ch.hist|] == SubOk(qid);
  }

  lemma SubAnswers(h: Hub, c: Conn, qid: string, now: int, o: Oracle)
    requires c < |h.chans| && Known(h, Cached(h, qid).sub) && Open(h.chans[c]) && Room(h.chans[c])
    requires c in h.clients && !Subscribes(h, c)
    ensures var out := HandleSub(h, c, qid, now, o);
      && out.Alive? && |out.hub.chans| == |h.chans| && c in out.hub.clients
      && Replied(h.chans[c].hist, out.hub.chans[c].hist, qid)
      && (Subscribes(out.hub, c) ==> out.hub.chans[c].hist[|h.chans[c].hist|] == SubOk(qid))
  {
    var g := HandleSub(h, c, qid, now, o).hub;
    if Refuses(h, c, qid, o) {
      assert g.queues == h.queues;
    } else {
      var h1 := TakePlace(h, c, qid);
      assert h1.chans[c] == h.chans[c];
      assert c in h1.clients by { assert qid in h.queues ==> Cached(h, qid).sub != Some(c); }
      SubReplays(h, c, qid, now, o);
      ReplayReplies(h.chans[c], qid, ReplayRows(h.vault, qid, o), o, |ReplayRows(h.vault, qid, o)|);
    }
  }

  /** What the first command on the wire is. */
  lemma FirstUp(x: Solo, asked: Option<string>)
    requires Inv(x, asked) && x.c in x.p.readers && x.s.up != []
    ensures x.s.replyAt.None? ==>
      && asked.None? && x.c in x.p.hub.clients && Open(x.p.hub.chans[x.c]) && !Subscribes(x.p.hub, x.c)
      && Bounded(x.p.hub.chans[x.c]) && Room(x.p.hub.chans[x.c]) && (x.s.phase != Dialled && x.s.phase != HaveOutbox)
      && x.s.pending.None? && |x.s.up| == 1
      && ((x.s.up[0] == NewCommand() && x.p.hub.chans[x.c].hist == [] && x.s.phase != WaitSubOk)
          || (x.s.up[0] == SubCommand(x.s.inbox) && (x.s.phase == WaitSubOk || x.s.phase == Ended)))
    ensures x.s.replyAt.Some? ==> asked.Some? && (x.s.up[0].kind == SEND || x.s.up[0].kind == ACK)
  {
  }

  /** The session after its command, when the channel now holds hist'. */
  lemma TakenStarted(hist: seq<Frame>, hist': seq<Frame>, s: Session)
    requires World.Started(hist, s) && s.replyAt.Some? && 0 < s.wired && s.up != [] && s.up[0].kind != SUB
    requires hist <= hist'
    requires !hist[s.replyAt.value].SubOk? ==> forall i :: |hist| <= i < |hist'| ==> !hist'[i].Deliver?
    ensures World.Started(hist', Heard(s, |hist|, |hist'|))
  {
  }

  lemma RepliedStarted(hist: seq<Frame>, hist': seq<Frame>, s: Session)
    requires World.Started(hist, s) && s.replyAt.None? && 0 < s.wired && s.up != [] && s.up[0] == SubCommand(s.inbox)
    requires s.recvd <= |hist| && (s.phase == WaitSubOk || s.phase == Ended) && Replied(hist, hist', s.inbox)
    ensures World.Started(hist', Heard(s, |hist|, |hist'|)) && Heard(s, |hist|, |hist'|).replyAt == Some(|hist|)
  {
  }

  /** The next asked, and the session after its first command. */
  function AskedNow(x: Solo, asked: Option<string>): Option<string>
    requires x.s.up != []
  {
    Asking(asked, AskedBy(x.c, x.s.up[0], x.c))
  }

  ghost predicate Writing(x: Solo) {
    x.c < |x.p.hub.chans| && 0 < x.s.wired && x.s.up != []
  }

  /** The session when its command has left the server with hub g. */
  function Taking(x: Solo, g: Hub): Session
    requires Writing(x) && x.c < |g.chans|
  {
    Heard(x.s, |x.p.hub.chans[x.c].hist|, |g.chans[x.c].hist|)
  }

  ghost predicate SaneAt(x: Solo, asked: Option<string>, g: Hub)
    requires Writing(x)
  {
    x.c < |g.chans| && Sane(g, true, x.c, Taking(x, g), AskedNow(x, asked))
  }

  ghost predicate SettledAt(x: Solo, asked: Option<string>, g: Hub)
    requires Writing(x)
  {
    x.c < |g.chans| && Settled(g, x.c, Taking(x, g), AskedNow(x, asked))
  }

  lemma NewServed(x: Solo, asked: Option<string>, o: Oracle)
    requires Inv(x, asked) && May(x, Serve(o)) && x.s.up[0].kind == NEW
    ensures var out := Read(x.p.hub, x.c, Wire(x.s.up[0]), x.p.now, o); out.Alive? && SaneAt(x, asked, out.hub)
  {
    FirstUp(x, asked);
    ReadLined(x.p.hub, x.c, Wire(x.s.up[0]), x.p.now, o, x.c, asked);
    NewAnswers(x.p.hub, x.c, x.p.now, o);
    var g := Read(x.p.hub, x.c, Wire(x.s.up[0]), x.p.now, o).hub;
    ShownStays(x.p.hub.chans[x.c].hist, g.chans[x.c].hist, x.s, Taking(x, g));
  }

  lemma SubServed(x: Solo, asked: Option<string>, o: Oracle)
    requires Inv(x, asked) && May(x, Serve(o)) && x.s.up[0].kind == SUB
    ensures var out := Read(x.p.hub, x.c, Wire(x.s.up[0]), x.p.now, o); out.Alive? && SaneAt(x, asked, out.hub)
  {
    FirstUp(x, asked);
    ReadLined(x.p.hub, x.c, Wire(x.s.up[0]), x.p.now, o, x.c, asked);
    CachedIsReferenced(x.p.hub, x.p.birth, x.s.inbox);
    SubAnswers(x.p.hub, x.c, x.s.inbox, x.p.now, o);
    var g := Read(x.p.hub, x.c, Wire(x.s.up[0]), x.p.now, o).hub;
    RepliedStarted(x.p.hub.chans[x.c].hist, g.chans[x.c].hist, x.s);
    ShownStays(x.p.hub.chans[x.c].hist, g.chans[x.c].hist, x.s, Taking(x, g));
  }

  /** SEND and ACK, even when they crash. */
  lemma TalkServed(x: Solo, asked: Option<string>, o: Oracle)
    requires Inv(x, asked) && May(x, Serve(o)) && (x.s.up[0].kind == SEND || x.s.up[0].kind == ACK)
    ensures SaneAt(x, asked, Read(x.p.hub, x.c, Wire(x.s.up[0]), x.p.now, o).hub)
  {
    FirstUp(x, asked);
    var h, env := x.p.hub, x.s.up[0];
    ReadLined(h, x.c, Wire(env), x.p.now, o, x.c, asked);
    TalkAnswers(h, x.c, env, x.p.now, o);
    TalkSane(x, asked, Read(h, x.c, Wire(env), x.p.now, o).hub);
  }

  lemma TalkAnswers(h: Hub, c: Conn, env: Envelope, now: int, o: Oracle)
    requires Indexed(h) && c < |h.chans| && (env.kind == SEND || env.kind == ACK)
    ensures var g := Read(h, c, Wire(env), now, o).hub; OnlyAnswers(h, g, c) && (Subscribes(g, c) ==> Subscribes(h, c))
  {
    if env.kind == SEND { SendAnswers(h, c, env, now, o); }
  }

  lemma TalkSane(x: Solo, asked: Option<string>, g: Hub)
    requires Writing(x) && Sane(x.p.hub, true, x.c, x.s, asked) && asked.Some?
    requires x.s.replyAt.Some? && x.s.up[0].kind != SUB
    requires OnlyAnswers(x.p.hub, g, x.c) && (Subscribes(g, x.c) ==> Subscribes(x.p.hub, x.c))
    requires Lined(g, x.c, asked) && Faithful(g, x.c, asked)
    ensures SaneAt(x, asked, g)
  {
    var hist, hist' := x.p.hub.chans[x.c].hist, g.chans[x.c].hist;
    TakenStarted(hist, hist', x.s);
    ShownStays(hist, hist', x.s, Taking(x, g));
  }

  lemma ServedSane(x: Solo, asked: Option<string>, o: Oracle)
    requires Inv(x, asked) && May(x, Serve(o))
    ensures SaneAt(x, asked, Read(x.p.hub, x.c, Wire(x.s.up[0]), x.p.now, o).hub)
  {
    FirstUp(x, asked);
    match x.s.up[0].kind
    case NEW => NewServed(x, asked, o);
    case SUB => SubServed(x, asked, o);
    case SEND => TalkServed(x, asked, o);
    case ACK => TalkServed(x, asked, o);
  }

  /** When the process ends only the session and its channel matter. */
  lemma EndedSane(p: Process, g: Hub, c: Conn, s: Session, asked: Option<string>)
    requires Settled(g, c, s, asked)
    ensures Sane(Rebooted(p, g).hub, false, c, s, asked)
  {
    LinedWidens(g, Rebooted(p, g).hub, c, asked);
  }

  lemma ServeKeeps(x: Solo, o: Oracle, asked: Option<string>)
    requires Inv(x, asked) && May(x, Serve(o))
    ensures Inv(Do(x, Serve(o)), AskedNow(x, asked))
  {
    StepKeeps(x.p, Incoming(x.c, Wire(x.s.up[0]), o));
    ServedSane(x, asked, o);
    var out := Read(x.p.hub, x.c, Wire(x.s.up[0]), x.p.now, o);
    if out.Crashed? { EndedSane(x.p, out.hub, x.c, Taking(x, out.hub), AskedNow(x, asked)); }
  }

  // ---- the process ends in the middle of the session's command ----

  /** Nothing was sent yet. */
  lemma SilentSettled(x: Solo, asked: Option<string>, g: Hub)
    requires Inv(x, asked) && Writing(x) && x.c in x.p.readers
    requires Lined(g, x.c, AskedNow(x, asked)) && g.chans[x.c].hist == x.p.hub.chans[x.c].hist
    ensures SettledAt(x, asked, g)
  {
    FirstUp(x, asked);
    var hist := x.p.hub.chans[x.c].hist;
    ShownStays(hist, hist, x.s, Heard(x.s, |hist|, |hist|));
  }

  /** How far a SUB of c has come while the process still runs. */
  ghost predicate PartOfSub(h: Hub, c: Conn, qid: string, o: Oracle, g: Hub)
    requires c < |h.chans| && Known(h, Cached(h, qid).sub)
  {
    || g == h || g == TakePlace(h, c, qid)
    || exists n: nat :: n <= |ReplayRows(h.vault, qid, o)| && g == Answered(TakePlace(h, c, qid), c, qid, o, n)
  }

  lemma PartsOfSub(h: Hub, c: Conn, env: Envelope, now: int, o: Oracle, i: nat)
    requires c < |h.chans| && Known(h, Cached(h, env.qid).sub) && env.kind == SUB && i < |Between(h, c, env, now, o)|
    ensures PartOfSub(h, c, env.qid, o, Between(h, c, env, now, o)[i])
  {
    if i > 0 { SubBetweenAt(h, c, env, now, o, i); }
  }

  lemma SubBetween(x: Solo, asked: Option<string>, o: Oracle, g: Hub)
    requires Inv(x, asked) && Writing(x) && x.c in x.p.readers && x.s.up[0].kind == SUB
    requires Known(x.p.hub, Cached(x.p.hub, x.s.up[0].qid).sub)
    requires PartOfSub(x.p.hub, x.c, x.s.up[0].qid, o, g) && Lined(g, x.c, AskedNow(x, asked))
    ensures SettledAt(x, asked, g)
  {
    FirstUp(x, asked);
    var h, c, qid := x.p.hub, x.c, x.s.up[0].qid;
    UnheardPlace(h, c, qid);
    if g == h || g == TakePlace(h, c, qid) {
      SilentSettled(x, asked, g);
    } else {
      var n: nat :| n <= |ReplayRows(h.vault, qid, o)| && g == Answered(TakePlace(h, c, qid), c, qid, o, n);
      AnsweredSettled(x, asked, o, n);
    }
  }

  lemma UnheardPlace(h: Hub, c: Conn, qid: string)
    requires c < |h.chans| && Known(h, Cached(h, qid).sub) && !Subscribes(h, c)
    ensures TakePlace(h, c, qid).chans[c] == h.chans[c]
  {
    assert Cached(h, qid).sub != Some(c) by { assert qid in h.queues ==> h.queues[qid].sub != Some(c); }
  }

  lemma AnsweredSettled(x: Solo, asked: Option<string>, o: Oracle, n: nat)
    requires Inv(x, asked) && Writing(x) && x.c in x.p.readers && x.s.up[0].kind == SUB
    requires Known(x.p.hub, Cached(x.p.hub, x.s.up[0].qid).sub)
    requires n <= |ReplayRows(x.p.hub.vault, x.s.up[0].qid, o)|
    requires Lined(Answered(TakePlace(x.p.hub, x.c, x.s.up[0].qid), x.c, x.s.up[0].qid, o, n), x.c, AskedNow(x, asked))
    ensures SettledAt(x, asked, Answered(TakePlace(x.p.hub, x.c, x.s.up[0].qid), x.c, x.s.up[0].qid, o, n))
  {
    FirstUp(x, asked);
    var hist, g := x.p.hub.chans[x.c].hist, Answered(TakePlace(x.p.hub, x.c, x.s.up[0].qid), x.c, x.s.up[0].qid, o, n);
    AnsweredReplies(x.p.hub, x.c, x.s.inbox, o, n);
    RepliedStarted(hist, g.chans[x.c].hist, x.s);
    ShownStays(hist, g.chans[x.c].hist, x.s, Taking(x, g));
  }

  lemma AnsweredReplies(h: Hub, c: Conn, qid: string, o: Oracle, n: nat)
    requires c < |h.chans| && Known(h, Cached(h, qid).sub) && n <= |ReplayRows(h.vault, qid, o)|
    requires Open(h.chans[c]) && Room(h.chans[c]) && !Subscribes(h, c)
    ensures Replied(h.chans[c].hist, Answered(TakePlace(h, c, qid), c, qid, o, n).chans[c].hist, qid)
  {
    UnheardPlace(h, c, qid);
    ReplayReplies(h.chans[c], qid, ReplayRows(h.vault, qid, o), o, n);
  }

  /** How far a SEND has come. */
  ghost predicate PartOfSend(h: Hub, qid: string, g: Hub)
    requires Known(h, Cached(h, qid).sub)
  {
    var sub := Cached(h, qid).sub;
    || g == h.(vault := g.vault)
    || exists f :: sub.Some? && g == SendTo(h.(vault := g.vault), sub.value, f).hub
  }

  lemma PartsOfSend(h: Hub, c: Conn, env: Envelope, now: int, o: Oracle, i: nat)
    requires c < |h.chans| && Known(h, Cached(h, env.qid).sub) && env.kind == SEND && i < |Between(h, c, env, now, o)|
    ensures PartOfSend(h, env.qid, Between(h, c, env, now, o)[i])
  {
    if i > 0 { SendBetweenAt(h, c, env, now, o, i); }
  }

  lemma SendBetween(x: Solo, asked: Option<string>, g: Hub)
    requires Inv(x, asked) && Writing(x) && x.c in x.p.readers && x.s.up[0].kind == SEND
    requires Known(x.p.hub, Cached(x.p.hub, x.s.up[0].qid).sub)
    requires PartOfSend(x.p.hub, x.s.up[0].qid, g) && Lined(g, x.c, AskedNow(x, asked))
    ensures SettledAt(x, asked, g)
  {
    if g == x.p.hub.(vault := g.vault) { SilentSettled(x, asked, g); } else { DeliveredSettled(x, asked, g); }
  }

  lemma DeliveredSettled(x: Solo, asked: Option<string>, g: Hub)
    requires Inv(x, asked) && Writing(x) && x.c in x.p.readers && x.s.up[0].kind == SEND
    requires Known(x.p.hub, Cached(x.p.hub, x.s.up[0].qid).sub)
    requires PartOfSend(x.p.hub, x.s.up[0].qid, g) && Lined(g, x.c, asked)
    ensures SettledAt(x, asked, g)
  {
    FirstUp(x, asked);
    var hist, hist' := x.p.hub.chans[x.c].hist, g.chans[x.c].hist;
    if Cached(x.p.hub, x.s.up[0].qid).sub == Some(x.c) { assert x.s.up[0].qid in x.p.hub.queues; }
    assert OnlyAnswers(x.p.hub, g, x.c);
    TakenStarted(hist, hist', x.s);
    ShownStays(hist, hist', x.s, Taking(x, g));
  }

  lemma BetweenSettled(x: Solo, asked: Option<string>, o: Oracle, i: nat)
    requires Inv(x, asked) && May(x, Serve(o)) && i < |Between(x.p.hub, x.c, x.s.up[0], x.p.now, o)|
    ensures SettledAt(x, asked, Between(x.p.hub, x.c, x.s.up[0], x.p.now, o)[i])
  {
    FirstUp(x, asked);
    BetweenLined(x.p.hub, x.c, x.s.up[0], x.p.now, o, i, x.c, asked);
    var g := Between(x.p.hub, x.c, x.s.up[0], x.p.now, o)[i];
    match x.s.up[0].kind
    case SUB =>
      PartsOfSub(x.p.hub, x.c, x.s.up[0], x.p.now, o, i);
      SubBetween(x, asked, o, g);
    case SEND =>
      PartsOfSend(x.p.hub, x.c, x.s.up[0], x.p.now, o, i);
      SendBetween(x, asked, g);
    case NEW => SilentSettled(x, asked, g);
    case ACK => SilentSettled(x, asked, g);
  }

  lemma StageSettled(x: Solo, o: Oracle, stage: nat, asked: Option<string>, g: Hub)
    requires Writing(x) && Indexed(x.p.hub) && stage < |Stages(x.p.hub, x.c, x.s.up[0], x.p.now, o)|
    requires g == Stages(x.p.hub, x.c, x.s.up[0], x.p.now, o)[stage]
    requires Inv(x, asked) && May(x, Serve(o))
    ensures SettledAt(x, asked, g)
  {
    if stage < |Between(x.p.hub, x.c, x.s.up[0], x.p.now, o)| {
      BetweenSettled(x, asked, o, stage);
    } else {
      ServedSane(x, asked, o);
    }
  }

  lemma DieServingKeeps(x: Solo, o: Oracle, stage: nat, asked: Option<string>)
    requires Inv(x, asked) && May(x, DieServing(o, stage))
    ensures Inv(Do(x, DieServing(o, stage)), AskedNow(x, asked))
  {
    StepKeeps(x.p, Die(x.c, x.s.up[0], o, stage));
    var g := Stages(x.p.hub, x.c, x.s.up[0], x.p.now, o)[stage];
    StageSettled(x, o, stage, asked, g);
    EndedSane(x.p, g, x.c, Taking(x, g), AskedNow(x, asked));
  }

  // ---- runs ----

  lemma ActKeeps(x: Solo, a: Act, asked: Option<string>)
    requires Inv(x, asked) && May(x, a)
    ensures exists asked' :: Inv(Do(x, a), asked')
  {
    match a
    case Other(step) => OtherKeeps(x, step, asked);
    case Receive => ReceiveKeeps(x, asked);
    case Serve(o) => ServeKeeps(x, o, asked);
    case DieServing(o, stage) => DieServingKeeps(x, o, stage, asked);
    case _ => AloneKeeps(x, a, asked);
  }

  lemma {:induction false} ActsKeep(x: Solo, acts: seq<Act>, x': Solo, asked: Option<string>)
    requires Inv(x, asked) && Runs(x, acts, x')
    ensures exists asked' :: Inv(x', asked')
    decreases acts
  {
    if acts != [] {
      ActKeeps(x, acts[0], asked);
      var now :| Inv(Do(x, acts[0]), now);
      ActsKeep(Do(x, acts[0]), acts[1..], x', now);
    }
  }

  /** x is reached by a session that dialled a server in some sound state. */
  ghost predicate Reachable(x: Solo) {
    exists p, acts :: ProcessInv(p) && Enabled(p, Connect) && Runs(Dialling(p), acts, x)
  }

  lemma ReachableIsSound(x: Solo) returns (asked: Option<string>)
    requires Reachable(x)
    ensures Inv(x, asked)
  {
    var p, acts :| ProcessInv(p) && Enabled(p, Connect) && Runs(Dialling(p), acts, x);
    DiallingIsSound(p);
    ActsKeep(Dialling(p), acts, x, None);
    asked :| Inv(x, asked);
  }

  /** Acceptance n of queue qid is line l, word for word. */
  ghost predicate IsLineOf(v: Vault, l: Line, qid: string, n: nat) {
    n < |v.log| && v.log[n].mid == l.mid && v.log[n].qid == qid && v.log[n].payload == Chat(l.text)
  }

  /** js says which acceptances of its queue a session displays. */
  ghost predicate Follows(v: Vault, s: Session, js: seq<nat>) {
    && |js| == |s.shown|
    && (forall i :: 0 <= i < |js| ==> IsLineOf(v, s.shown[i], s.inbox, js[i]))
    && (forall i, j :: 0 <= i < j < |js| ==> js[i] < js[j])
  }

  lemma DisplayFollows(v: Vault, hist: seq<Frame>, s: Session, asked: Option<string>)
    requires InSequence(v, asked, hist, |v.log|) && (exists ks :: ShownFrom(hist, s, ks))
    requires asked.Some? ==> asked == Some(s.inbox)
    ensures exists js :: Follows(v, s, js)
  {
    var ks :| ShownFrom(hist, s, ks);
    var ns :| Numbered(v, asked, hist, ns, |v.log|);
    var js := seq(|ks|, i requires 0 <= i < |ks| => ns[ks[i]]);
    forall i | 0 <= i < |js| ensures IsLineOf(v, s.shown[i], s.inbox, js[i]) {
      assert Shows(hist[ks[i]], s.shown[i]) && Carries(v, asked, hist[ks[i]], ns[ks[i]]);
    }
    forall i, j | 0 <= i < j < |js| ensures js[i] < js[j] {
      assert Shows(hist[ks[i]], s.shown[i]) && Shows(hist[ks[j]], s.shown[j]);
    }
    assert Follows(v, s, js);
  }

  /** Whoever else is connected, and whatever ids they use: what a session displays are,
      word for word, strictly increasing acceptances of the queue it asked for, and no id
      twice. */
  lemma SessionOrder(x: Solo)
    requires Reachable(x)
    ensures exists js :: Follows(x.p.hub.vault, x.s, js)
    ensures forall i, j :: 0 <= i < j < |x.s.shown| ==> x.s.shown[i].mid != x.s.shown[j].mid
  {
    var asked := ReachableIsSound(x);
    DisplayFollows(x.p.hub.vault, x.p.hub.chans[x.c].hist, x.s, asked);
  }

  /** The start-up swallows nothing: no DELIVER precedes the answer to SUB, the frame a
      waiting request reads is none, the answer always finds room, and every message id a
      session has read was displayed, unless a delivery of it could not be decoded. */
  lemma StartUpSwallowsNothing(x: Solo)
    requires Reachable(x)
    ensures x.c < |x.p.hub.chans|
    ensures var s, hist := x.s, x.p.hub.chans[x.c].hist;
      && s.recvd <= |hist|
      && (StartingUp(s) && s.recvd < |hist| ==> !hist[s.recvd].Deliver?)
      && (s.replyAt.None? ==> forall i :: 0 <= i < |hist| ==> !hist[i].Deliver?)
      && (s.replyAt.Some? ==>
            && s.replyAt.value <= 1 && s.replyAt.value < |hist|
            && (hist[s.replyAt.value] == SubOk(s.inbox) || hist[s.replyAt.value].Error?)
            && (forall i :: 0 <= i < s.replyAt.value ==> !hist[i].Deliver?))
      && (forall i :: 0 <= i < s.recvd && hist[i].Deliver? ==>
            World.ShownIn(s, hist[i].mid) || Garbled(hist, s, hist[i].mid))
  {
    var asked := ReachableIsSound(x);
    var s, hist := x.s, x.p.hub.chans[x.c].hist;
    if StartingUp(s) && s.recvd < |hist| { WorldProofs.ReceiveStarts(hist, s); }
  }

  /** When the server has taken the SUB of a live connection, the answer is there. */
  lemma SubIsAnswered(x: Solo)
    requires Reachable(x) && x.c in x.p.readers && x.s.phase == WaitSubOk && x.s.up == []
    ensures x.c < |x.p.hub.chans| && x.s.replyAt.Some? && x.s.recvd <= x.s.replyAt.value < |x.p.hub.chans[x.c].hist|
  {
    var asked := ReachableIsSound(x);
  }
}
