/** The relay together with shipped clients: one session per connection, each sending only
    what client/session.go and client/pumps.go send. Connections drop, clients quit, the
    server kicks, sweeps, restarts and crashes at any moment. */
module World {
  import opened Ids
  import opened Frames
  import opened Relay
  import opened Steps
  import opened Invariants
  import opened Chat

  /** used: every message id a client has drawn. */
  datatype World = World(p: Process, sessions: seq<Session>, used: set<string>)

  datatype Move =
    | Dial
    | AskNew(c: Conn)                               // request(NEW)
    | PickOutbox(c: Conn, qid: string)              // -queue, or the state file
    | AskSub(c: Conn, qid: string)                  // request(SUB), qid from a parsed invite
    | Receive(c: Conn)                              // one frame read from the wire
    | PushAck(c: Conn)                              // the read pump's blocking send
    | Type(c: Conn, mid: string, text: string)      // stdinLoop
    | WireUp(c: Conn)                               // the client's write pump
    | Quit(c: Conn)
    | Serve(c: Conn, o: Oracle)                     // the server reads one command
    | DieServing(c: Conn, o: Oracle, stage: nat)    // and crashes at a given statement
    | Server(s: Step)                               // anything else the server does

  predicate ServerAlone(s: Step) {
    !s.Connect? && !s.Incoming? && !s.Die?
  }

  ghost predicate Allowed(w: World, m: Move) {
    && |w.sessions| == |w.p.hub.chans|
    && Indexed(w.p.hub)
    && (!m.Dial? && !m.Server? ==> m.c < |w.sessions|)
    && match m
       case Dial => true
       case AskNew(c) => w.sessions[c].phase == Dialled
       case PickOutbox(c, qid) => w.sessions[c].phase == Dialled && ClientValidQID(qid)
       case AskSub(c, qid) => w.sessions[c].phase == HaveOutbox && ValidQueueID(qid)
       case Receive(c) =>
         && (StartingUp(w.sessions[c]) || (w.sessions[c].phase == Chatting && w.sessions[c].pending.None?))
         && w.sessions[c].recvd < w.p.hub.chans[c].popped <= |w.p.hub.chans[c].hist|
       case PushAck(c) => w.sessions[c].pending.Some? && HasRoom(w.sessions[c])
       case Type(c, mid, text) => w.sessions[c].phase == Chatting && ClientValidQID(mid) && mid !in w.used
       case WireUp(c) => w.sessions[c].wired < |w.sessions[c].up|
       case Quit(c) => true
       case Serve(c, o) =>
         0 < w.sessions[c].wired <= |w.sessions[c].up| && Enabled(w.p, Incoming(c, Wire(w.sessions[c].up[0]), o))
       case DieServing(c, o, stage) =>
         0 < w.sessions[c].wired <= |w.sessions[c].up| && Enabled(w.p, Die(c, w.sessions[c].up[0], o, stage))
       case Server(s) => ServerAlone(s) && Enabled(w.p, s)
  }

  function With(w: World, c: Conn, s: Session): World
    requires c < |w.sessions|
  {
    w.(sessions := w.sessions[c := s])
  }

  /** The session whose first command the server took, and answered as g's channel says. */
  function Replied(w: World, c: Conn, g: Hub): Session
    requires c < |w.sessions| == |w.p.hub.chans| && 0 < w.sessions[c].wired && w.sessions[c].up != []
  {
    Heard(w.sessions[c], |w.p.hub.chans[c].hist|, if c < |g.chans| then |g.chans[c].hist| else 0)
  }

  function Moved(w: World, m: Move): World
    requires Allowed(w, m)
  {
    match m
    case Dial => w.(p := Apply(w.p, Connect), sessions := w.sessions + [NEW_SESSION])
    case AskNew(c) =>
      With(w, c, Asked(w.sessions[c], WaitNewOk, NewCommand()))
    case PickOutbox(c, qid) => With(w, c, w.sessions[c].(phase := HaveOutbox, outbox := qid))
    case AskSub(c, qid) =>
      With(w, c, Asked(w.sessions[c].(inbox := qid), WaitSubOk, SubCommand(qid)))
    case Receive(c) =>
      With(w, c, Received(w.sessions[c], w.p.hub.chans[c].hist[w.sessions[c].recvd]))
    case PushAck(c) =>
      With(w, c, AckPushed(w.sessions[c]))
    case Type(c, mid, text) =>
      With(w, c, Typed(w.sessions[c], mid, text)).(used := w.used + {mid})
    case WireUp(c) => With(w, c, w.sessions[c].(wired := w.sessions[c].wired + 1))
    case Quit(c) => With(w, c, w.sessions[c].(phase := Ended))
    case Serve(c, o) =>
      var s := Taken(w.sessions[c]);
      var env := w.sessions[c].up[0];
      var s' := if env.kind == SUB then s.(replyAt := Some(|w.p.hub.chans[c].hist|)) else s;
      With(w, c, s').(p := Apply(w.p, Incoming(c, Wire(env), o)))
    case DieServing(c, o, stage) =>
      var p' := Apply(w.p, Die(c, w.sessions[c].up[0], o, stage));
      With(w, c, Replied(w, c, p'.hub)).(p := p')
    case Server(s) => w.(p := Apply(w.p, s))
  }

  ghost predicate Moves(w: World, ms: seq<Move>, w': World)
    decreases ms
  {
    if ms == [] then w' == w
    else Allowed(w, ms[0]) && Moves(Moved(w, ms[0]), ms[1..], w')
  }

  const GENESIS := World(START, [], {})

  // ---- invariants of one connection ----

  /** The message f carries is the accepted one, in queue qid. */
  ghost predicate Genuine(v: Vault, f: Frame, qid: string)
    requires f.Deliver?
  {
    && f.qid == qid && f.payload.Chat?
    && f.mid in v.number && v.number[f.mid] < |v.log|
    && v.log[v.number[f.mid]].mid == f.mid
    && v.log[v.number[f.mid]].qid == qid
    && v.log[v.number[f.mid]].payload == f.payload
  }

  /** A channel carries messages of one queue, in acceptance order, each once. */
  ghost predicate Ordered(v: Vault, hist: seq<Frame>, qid: string) {
    && (forall i :: 0 <= i < |hist| && hist[i].Deliver? ==> Genuine(v, hist[i], qid))
    && (forall i, j :: 0 <= i < j < |hist| && hist[i].Deliver? && hist[j].Deliver? ==>
          v.number[hist[i].mid] < v.number[hist[j].mid])
  }

  predicate Preliminary(f: Frame) {
    f.NewOk? || f.Error?
  }

  /** Before the reply to SUB there is at most one frame, the reply to NEW; only after a
      SUB_OK can there be a DELIVER; a session chats only after it has read its SUB_OK. */
  ghost predicate Started(hist: seq<Frame>, s: Session) {
    match s.replyAt
    case None =>
      && |hist| <= 1 && (forall i :: 0 <= i < |hist| ==> Preliminary(hist[i]))
      && (s.phase == Dialled ==> hist == [])
      && s.phase != Chatting
    case Some(k) =>
      && k < |hist| && k <= 1 && (forall i :: 0 <= i < k ==> Preliminary(hist[i]))
      && (hist[k] == SubOk(s.inbox) || (hist[k].Error? && forall i :: 0 <= i < |hist| ==> !hist[i].Deliver?))
      && (s.phase == WaitSubOk || s.phase == Chatting || s.phase == Ended)
      && (s.phase == WaitSubOk ==> s.recvd <= k)
      && (s.phase == Chatting ==> k < s.recvd && hist[k].SubOk?)
  }

  ghost predicate ShownIn(s: Session, mid: string) {
    exists i :: 0 <= i < |s.shown| && s.shown[i].mid == mid
  }

  ghost predicate ReceivedLine(hist: seq<Frame>, s: Session, l: Line) {
    exists i :: 0 <= i < s.recvd && i < |hist| && hist[i] == Deliver(s.inbox, l.mid, Chat(l.text))
  }

  /** The display is exactly what was received, in acceptance order. */
  ghost predicate Displays(v: Vault, hist: seq<Frame>, s: Session) {
    && s.recvd <= |hist|
    && (forall m :: m in s.seen <==> ShownIn(s, m))
    && (forall i :: 0 <= i < |s.shown| ==> s.shown[i].mid in v.number && ReceivedLine(hist, s, s.shown[i]))
    && (forall i, j :: 0 <= i < j < |s.shown| ==> v.number[s.shown[i].mid] < v.number[s.shown[j].mid])
    && (forall i :: 0 <= i < s.recvd && hist[i].Deliver? ==> hist[i].mid in s.seen)
  }

  /** A command of the chatting phase: a SEND with a fresh id to the outbox, or the ACK of
      something displayed. All ids are 32 hex digits. */
  ghost predicate Talk(v: Vault, used: set<string>, s: Session, env: Envelope) {
    match env.kind
    case SEND =>
      && ValidQueueID(env.qid) && ClientValidQID(env.mid) && env.payload.Chat?
      && env.mid in used && env.mid !in v.number
    case ACK => env.qid == s.inbox && ValidQueueID(env.qid) && ClientValidQID(env.mid) && env.mid in s.seen
    case _ => false
  }

  /** What a live connection still has on its way to the server. */
  ghost predicate Upstream(v: Vault, used: set<string>, hist: seq<Frame>, s: Session) {
    && s.wired <= |s.up|
    && (s.phase == HaveOutbox || s.phase == WaitSubOk || s.phase == Chatting ==> ValidQueueID(s.outbox))
    && (s.pending.Some? ==> s.replyAt.Some? && s.pending.value.kind == ACK && Talk(v, used, s, s.pending.value))
    && match s.replyAt
       case None =>
         && (s.phase == Dialled || s.phase == HaveOutbox ==> s.up == [])
         && (s.phase == WaitNewOk ==> s.up == [] || s.up == [NewCommand()])
         && (s.phase == WaitSubOk ==> s.up == [SubCommand(s.inbox)])
         && (s.phase == Ended ==> s.up == [] || s.up == [NewCommand()] || s.up == [SubCommand(s.inbox)])
         && (s.up == [NewCommand()] ==> hist == [])
         && (s.up == [SubCommand(s.inbox)] ==> ValidQueueID(s.inbox))
       case Some(_) => forall i :: 0 <= i < |s.up| ==> Talk(v, used, s, s.up[i])
  }

  ghost predicate ConnInv(w: World, c: Conn)
    requires c < |w.sessions| == |w.p.hub.chans|
  {
    var s, hist, v := w.sessions[c], w.p.hub.chans[c].hist, w.p.hub.vault;
    && Ordered(v, hist, s.inbox)
    && Started(hist, s)
    && Displays(v, hist, s)
    && (s.replyAt.Some? ==> ValidQueueID(s.inbox))
    && (forall i :: 0 <= i < |hist| && hist[i].NewOk? ==> ValidQueueID(hist[i].qid))
    && (c in w.p.readers ==> Upstream(v, w.used, hist, s))
    && (c in w.p.readers && s.replyAt.None? ==> c in w.p.hub.clients)
  }

  // ---- invariants of the whole ----

  /** Every subscriber is connected, asked for this queue, and was told SUB_OK. */
  ghost predicate Subscribed(w: World, c: Conn, qid: string)
    requires |w.sessions| == |w.p.hub.chans|
  {
    && c in w.p.hub.clients && c < |w.sessions|
    && w.sessions[c].inbox == qid && w.sessions[c].replyAt.Some?
    && w.sessions[c].replyAt.value < |w.p.hub.chans[c].hist|
    && w.p.hub.chans[c].hist[w.sessions[c].replyAt.value].SubOk?
  }

  ghost predicate LogWellFormed(v: Vault) {
    forall n :: 0 <= n < |v.log| ==>
      ClientValidQID(v.log[n].mid) && ValidQueueID(v.log[n].qid) && v.log[n].payload.Chat?
  }

  /** The i-th command on its way from live connection c is a SEND. */
  ghost predicate InFlight(w: World, c: Conn, i: int) {
    c in w.p.readers && c < |w.sessions| && 0 <= i < |w.sessions[c].up| && w.sessions[c].up[i].kind == SEND
  }

  /** No two SENDs on their way carry one id. */
  ghost predicate DistinctSends(w: World) {
    forall c: Conn, d: Conn, i, j ::
      (InFlight(w, c, i) && InFlight(w, d, j) && w.sessions[c].up[i].mid == w.sessions[d].up[j].mid)
      ==> c == d && i == j
  }

  /** Acceptance n was displayed, as accepted, by a session subscribed to its queue. */
  ghost predicate Displayed(w: World, n: nat)
    requires n < |w.p.hub.vault.log|
  {
    var a := w.p.hub.vault.log[n];
    exists c: Conn, i :: c < |w.sessions| && 0 <= i < |w.sessions[c].shown|
      && w.sessions[c].inbox == a.qid && w.sessions[c].shown[i].mid == a.mid
      && a.payload == Chat(w.sessions[c].shown[i].text)
  }

  ghost predicate WorldInv(w: World) {
    && ProcessInv(w.p)
    && |w.sessions| == |w.p.hub.chans|
    && (forall c: Conn :: c < |w.sessions| ==> ConnInv(w, c))
    && (forall q :: q in w.p.hub.queues && w.p.hub.queues[q].sub.Some? ==>
          Subscribed(w, w.p.hub.queues[q].sub.value, q))
    && LogWellFormed(w.p.hub.vault)
    && (forall m :: m in w.p.hub.vault.number ==> m in w.used)
    && DistinctSends(w)
    && (forall n :: n in w.p.hub.vault.acked ==> n < |w.p.hub.vault.log| && Displayed(w, n))
  }
}
