/** The relay process: the hub, the read pumps that feed it, the sweeper that shares its
    tables, the clock, and restarts. One step is one hub event, one statement of Sweep, one
    frame taken by a write pump, or a crash. Clients are arbitrary here. What a write pump
    takes from a channel of an ended process it took before that end. */
module Steps {
  import opened Ids
  import opened Frames
  import opened Channel
  import opened Relay
  import Tables
  import Ledger

  const QUEUE_TTL := 604800  // seven days
  const ACK_GRACE := 86400   // one day

  /** Where Sweep stands; at is the time it was called with, not after its first statement. */
  datatype Sweeper = Idle | MessagesDone(at: int) | QueuesDone(at: int)

  /** readers: connections whose read pump has not ended. birth: the first connection of the
      present process. */
  datatype Process = Process(hub: Hub, readers: set<Conn>, birth: Conn, now: int, sweeper: Sweeper)

  datatype Step =
    | Connect
    | Incoming(c: Conn, m: Message, o: Oracle)
    | Disconnect(c: Conn)
    | Pop(c: Conn)
    | SweepMessages(at: int)
    | SweepQueues
    | SweepResidue
    | SweepFails
    | Tick(to: int)
    | Restart
    | Die(c: Conn, env: Envelope, o: Oracle, stage: nat)

  const START := Process(Hub(Ledger.EMPTY, {}, map[], [], {}, {}), {}, 0, 1, Idle)

  /** The process ends in state h. The tables survive, and what the write pumps may have put
      on the wire by then; every connection is closed. */
  function Rebooted(p: Process, h: Hub): Process {
    Process(Hub(h.vault, {}, map[], Ended(h.chans), {}, {}), {}, |h.chans|, p.now, Idle)
  }

  function Ended(chans: seq<Chan>): (ended: seq<Chan>)
    ensures |ended| == |chans|
  {
    seq(|chans|, c requires 0 <= c < |chans| => chans[c].(closes := 1))
  }

  function Resume(p: Process, outcome: Outcome): Process {
    match outcome
    case Alive(h) => p.(hub := h)
    case Crashed(h) => Rebooted(p, h)
  }

  /** NewID draws 32 lower-case hex digits (Ids.NewIDPassesBothChecks). */
  predicate WellDrawn(o: Oracle) {
    ClientValidQID(o.newId)
  }

  ghost predicate Enabled(p: Process, s: Step) {
    && Indexed(p.hub)
    && match s
       case Connect => true
       case Incoming(c, m, o) => c in p.readers && c < |p.hub.chans| && WellDrawn(o)
       case Disconnect(c) => c in p.readers && c < |p.hub.chans|
       case Pop(c) => c < |p.hub.chans|
       case SweepMessages(at) => p.sweeper.Idle? && at <= p.now
       case SweepQueues => p.sweeper.MessagesDone?
       case SweepResidue => p.sweeper.QueuesDone?
       case SweepFails => !p.sweeper.Idle?
       case Tick(to) => to >= p.now
       case Restart => true
       case Die(c, env, o, stage) =>
         c in p.readers && c < |p.hub.chans| && WellDrawn(o) && stage < |Stages(p.hub, c, env, p.now, o)|
  }

  function Apply(p: Process, s: Step): Process
    requires Enabled(p, s)
  {
    match s
    case Connect => p.(hub := Register(p.hub), readers := p.readers + {|p.hub.chans|})
    case Incoming(c, m, o) => Resume(p, Read(p.hub, c, m, p.now, o))
    case Disconnect(c) => p.(hub := Unregister(p.hub, c), readers := p.readers - {c})
    case Pop(c) => p.(hub := Written(p.hub, c, 1))
    case SweepMessages(at) =>
      p.(hub := p.hub.(vault := Ledger.ExpireMessages(p.hub.vault, at - QUEUE_TTL)), sweeper := MessagesDone(at))
    case SweepQueues =>
      if Tables.MaySweepQueues(p.hub.vault.db, p.sweeper.at - QUEUE_TTL) then
        p.(hub := p.hub.(vault := Ledger.ExpireQueues(p.hub.vault, p.sweeper.at - QUEUE_TTL)),
           sweeper := QueuesDone(p.sweeper.at))
      else p.(sweeper := Idle)
    case SweepResidue =>
      p.(hub := p.hub.(vault := Ledger.ExpireResidue(p.hub.vault, p.sweeper.at - ACK_GRACE)), sweeper := Idle)
    case SweepFails => p.(sweeper := Idle)
    case Tick(to) => p.(now := to)
    case Restart => Rebooted(p, p.hub)
    case Die(c, env, o, stage) => Rebooted(p, Stages(p.hub, c, env, p.now, o)[stage])
  }

  function Subscribing(c: Conn, qid: string, o: Oracle): Step {
    Incoming(c, Wire(SubCommand(qid)), o)
  }

  /** p' follows p by the steps of ss. */
  ghost predicate Runs(p: Process, ss: seq<Step>, p': Process)
    decreases ss
  {
    if ss == [] then p' == p
    else Enabled(p, ss[0]) && Runs(Apply(p, ss[0]), ss[1..], p')
  }
}
