/** How long a queue and its messages are kept, said over the history of the process: who
    used the queue when, and when the sweep was called. */
module Retention {
  import opened Ids
  import opened Frames
  import opened Channel
  import opened Relay
  import opened Steps
  import opened Invariants
  import opened Replies
  import Guarantees
  import Tables
  import Ledger

  // ---- use ----

  /** Handled to its end, env of connection c uses queue q: NEW creates it, SUB is granted,
      or SEND stores into it. */
  predicate Uses(h: Hub, c: Conn, env: Envelope, o: Oracle, q: string)
    requires c < |h.chans|
  {
    match env.kind
    case NEW => env.qid == "" && !o.idFails && !o.writeFails && q == o.newId
    case SUB => q == env.qid && Found(h, q, o) && OwnerOf(h, q) != Some(c) && Open(h.chans[c])
    case SEND => q == env.qid && Found(h, q, o) && Storable(h, env, o)
    case _ => false
  }

  /** Step s uses queue q. A process that ends in the middle has used it when two statements
      of NEW or SEND were run, or all of SUB. */
  ghost predicate InUse(p: Process, s: Step, q: string)
    requires Enabled(p, s)
  {
    match s
    case Incoming(c, m, o) => Parse(m).Some? && Uses(p.hub, c, Parse(m).value, o, q)
    case Die(c, env, o, stage) =>
      && Uses(p.hub, c, env, o, q)
      && if env.kind == SUB then stage + 1 == |Stages(p.hub, c, env, p.now, o)| else stage >= 2
    case _ => false
  }

  /** When q was last used, 0 if never since it was stored; t is the answer before s. */
  ghost function UsedAfter(p: Process, s: Step, q: string, t: int): int
    requires Enabled(p, s)
  {
    if InUse(p, s, q) then p.now else if q in p.hub.vault.db.queues then t else 0
  }

  ghost function LastUse(p: Process, ss: seq<Step>, p': Process, q: string, t: int): int
    requires Runs(p, ss, p')
    decreases ss
  {
    if ss == [] then t else LastUse(Apply(p, ss[0]), ss[1..], p', q, UsedAfter(p, ss[0], q, t))
  }

  // ---- the tables know ----

  ghost predicate Dated(v: Vault, q: string, t: int) {
    q in v.db.queues ==> v.db.queues[q].lastActive == t
  }

  /** The vault after a use of q, or without one. */
  ghost predicate Follows(v: Vault, v': Vault, q: string, used: bool, now: int) {
    && (q in v.db.queues ==> q in v'.db.queues)
    && forall t :: Dated(v, q, t) ==> Dated(v', q, if used then now else if q in v.db.queues then t else 0)
  }

  lemma CommandFollows(h: Hub, c: Conn, env: Envelope, now: int, o: Oracle, q: string)
    requires Indexed(h) && c < |h.chans|
    ensures Follows(h.vault, Handle(h, c, env, now, o).hub.vault, q, Uses(h, c, env, o, q), now)
  {
    match env.kind
    case SUB => SubFollows(h, c, env, now, o, q);
    case SEND =>
      UnstorableIsRefused(h, env, o);
      SendStores(h, c, env, now, o);
    case _ =>
  }

  lemma SubFollows(h: Hub, c: Conn, env: Envelope, now: int, o: Oracle, q: string)
    requires Indexed(h) && c < |h.chans| && env.kind == SUB
    ensures Follows(h.vault, HandleSub(h, c, env.qid, now, o).hub.vault, q, Uses(h, c, env, o, q), now)
  {
    UnstorableIsRefused(h, env, o);
    if !Refuses(h, c, env.qid, o) {
      var h1 := TakePlace(h, c, env.qid);
      assert h1.chans[c] == h.chans[c] && h1.vault == h.vault;
      AnswerEnds(h1, c, env.qid, now, o);
    }
  }

  lemma BetweenFollows(h: Hub, c: Conn, env: Envelope, now: int, o: Oracle, i: nat, q: string)
    requires Indexed(h) && c < |h.chans| && i < |Between(h, c, env, now, o)|
    ensures Follows(h.vault, Between(h, c, env, now, o)[i].vault, q,
                    Uses(h, c, env, o, q) && env.kind != SUB && i >= 2, now)
  {
    if i > 0 {
      match env.kind
      case SUB => SubBetweenAt(h, c, env, now, o, i);
      case SEND =>
        UnstorableIsRefused(h, env, o);
        SendBetweenAt(h, c, env, now, o, i);
      case _ =>
    }
  }

  lemma ReadFollows(h: Hub, c: Conn, m: Message, now: int, o: Oracle, q: string)
    requires Indexed(h) && c < |h.chans|
    ensures Follows(h.vault, Read(h, c, m, now, o).hub.vault, q,
                    Parse(m).Some? && Uses(h, c, Parse(m).value, o, q), now)
  {
    if Parse(m).Some? && Parse(m).value.kind != PING { CommandFollows(h, c, Parse(m).value, now, o, q); }
  }

  lemma DieFollows(p: Process, c: Conn, env: Envelope, o: Oracle, stage: nat, q: string)
    requires Enabled(p, Die(c, env, o, stage))
    ensures Follows(p.hub.vault, Apply(p, Die(c, env, o, stage)).hub.vault, q,
                    InUse(p, Die(c, env, o, stage), q), p.now)
  {
    if stage < |Between(p.hub, c, env, p.now, o)| {
      BetweenFollows(p.hub, c, env, p.now, o, stage, q);
    } else {
      ReadFollows(p.hub, c, Wire(env), p.now, o, q);
      LastStageIsLate(p.hub, c, env, p.now, o);
    }
  }

  lemma LastStageIsLate(h: Hub, c: Conn, env: Envelope, now: int, o: Oracle)
    requires Indexed(h) && c < |h.chans|
    ensures env.kind != SUB && (exists q :: Uses(h, c, env, o, q)) ==> |Between(h, c, env, now, o)| >= 2
  {
    if env.kind == SEND { UnstorableIsRefused(h, env, o); }
  }

  lemma StepFollows(p: Process, s: Step, q: string, t: int)
    requires Enabled(p, s) && Dated(p.hub.vault, q, t)
    ensures Dated(Apply(p, s).hub.vault, q, UsedAfter(p, s, q, t))
    ensures !s.SweepQueues? && q in p.hub.vault.db.queues ==> q in Apply(p, s).hub.vault.db.queues
  {
    match s
    case Incoming(c, m, o) => ReadFollows(p.hub, c, m, p.now, o, q);
    case Die(c, env, o, stage) => DieFollows(p, c, env, o, stage, q);
    case _ =>
  }

  lemma {:induction false} RunFollows(p: Process, ss: seq<Step>, p': Process, q: string, t: int)
    requires Runs(p, ss, p') && Dated(p.hub.vault, q, t)
    ensures Dated(p'.hub.vault, q, LastUse(p, ss, p', q, t))
    decreases ss
  {
    if ss != [] {
      StepFollows(p, ss[0], q, t);
      RunFollows(Apply(p, ss[0]), ss[1..], p', q, UsedAfter(p, ss[0], q, t));
    }
  }

  // ---- the sweep takes what is idle ----

  /** Used once, and a week ago or more. */
  predicate Idle(t: int, at: int) {
    0 < t && t + 604800 < at
  }

  /** A sweep called at time `at` takes exactly the messages of queues that were used at some
      time, but not within the week before: of those, all. */
  lemma SweepTakesExactlyTheIdle(ss: seq<Step>, p: Process, at: int, n: nat)
    requires Runs(START, ss, p) && Enabled(p, SweepMessages(at)) && n in Ledger.Stored(p.hub.vault)
    ensures n < |p.hub.vault.log|
    ensures n in Apply(p, SweepMessages(at)).hub.vault.expired
       <==> Idle(LastUse(START, ss, p, p.hub.vault.log[n].qid, 0), at)
  {
    StartIsSound();
    RunKeeps(START, ss, p);
    var v := p.hub.vault;
    var r :| r in v.db.rows && r.mid in v.number && v.number[r.mid] == n;
    assert Ledger.Booked(v, r);
    RunFollows(START, ss, p, r.qid, 0);
    ExpiryIsOfQueues(v, at - QUEUE_TTL, r);
  }

  lemma ExpiryIsOfQueues(v: Vault, cutoff: int, r: Tables.Row)
    requires Ledger.Sound(v) && r in v.db.rows && r.mid in v.number
    ensures r.qid in v.db.queues && v.number[r.mid] !in v.expired
    ensures v.number[r.mid] in Ledger.ExpireMessages(v, cutoff).expired
       <==> 0 < v.db.queues[r.qid].lastActive < cutoff
  {
    assert Ledger.Booked(v, r);
    var n, v' := v.number[r.mid], Ledger.ExpireMessages(v, cutoff);
    assert n in Ledger.Stored(v);
    if n in Ledger.Stored(v.(db := v'.db)) {
      var r' :| r' in v'.db.rows && r'.mid in v.number && v.number[r'.mid] == n;
      assert r' in v.db.rows && Ledger.Booked(v, r');
    }
  }

  /** And then exactly these queues. */
  lemma SweepRemovesExactlyTheIdle(ss: seq<Step>, p: Process, q: string)
    requires Runs(START, ss, p) && Enabled(p, SweepQueues) && q in p.hub.vault.db.queues
    ensures q !in Apply(p, SweepQueues).hub.vault.db.queues <==> Idle(LastUse(START, ss, p, q, 0), p.sweeper.at)
  {
    Guarantees.SweepIsSafe(p);
    RunFollows(START, ss, p, q, 0);
  }

  // ---- what is used is kept ----

  /** Step s visibly used queue q: somebody was told NEW_OK or SUB_OK, or a message was
      accepted. */
  ghost predicate Used(p: Process, s: Step, q: string)
    requires Enabled(p, s)
  {
    s.Incoming? &&
    var h, h' := p.hub, Apply(p, s).hub;
    || (|h'.chans| == |h.chans| && ToldOf(h.chans[s.c].tried, h'.chans[s.c].tried, q))
    || (h.vault.log < h'.vault.log && h'.vault.log[|h.vault.log|].qid == q)
  }

  ghost predicate ToldOf(tried: seq<Frame>, tried': seq<Frame>, q: string) {
    exists i :: |tried| <= i < |tried'| && (tried'[i] == NewOk(q) || tried'[i] == SubOk(q))
  }

  lemma UsedIsInUse(p: Process, s: Step, q: string)
    requires Enabled(p, s) && Used(p, s, q)
    ensures InUse(p, s, q)
  {
    var c, o, h := s.c, s.o, p.hub;
    if Parse(s.m).Some? && Parse(s.m).value.kind != PING {
      var env := Parse(s.m).value;
      UnstorableIsRefused(h, env, o);
      match env.kind
      case SUB => SubStores(h, c, env.qid, p.now, o); SubToldOf(h, c, env.qid, p.now, o, q);
      case SEND => SendStores(h, c, env, p.now, o); SendToldOf(h, c, env, p.now, o);
      case _ =>
    }
  }

  lemma ToldIsReceived(ch: Chan, ch': Chan, fs: seq<Frame>, q: string)
    requires Receives(ch, ch', fs) && ToldOf(ch.tried, ch'.tried, q)
    ensures NewOk(q) in fs || SubOk(q) in fs
  {
  }

  lemma BacklogNames(h: Hub, qid: string, o: Oracle, q: string)
    ensures NewOk(q) !in Backlog(h, qid, o) && (SubOk(q) in Backlog(h, qid, o) ==> q == qid)
  {
  }

  lemma SubToldOf(h: Hub, c: Conn, qid: string, now: int, o: Oracle, q: string)
    requires Indexed(h) && c < |h.chans|
    ensures var h' := HandleSub(h, c, qid, now, o).hub;
      && |h'.chans| == |h.chans|
      && (ToldOf(h.chans[c].tried, h'.chans[c].tried, q) ==> q == qid && !Refuses(h, c, qid, o) && Open(h.chans[c]))
  {
    var h' := HandleSub(h, c, qid, now, o).hub;
    if !Refuses(h, c, qid, o) {
      var h1, rows := TakePlace(h, c, qid), ReplayRows(h.vault, qid, o);
      UntouchedByOneself(h, c, qid);
      AnswerEnds(h1, c, qid, now, o);
      if Open(h.chans[c]) && ToldOf(h.chans[c].tried, h'.chans[c].tried, q) {
        BacklogIsOffered(h, c, qid, o);
        ToldIsReceived(h.chans[c], h'.chans[c], Backlog(h, qid, o), q);
        BacklogNames(h, qid, o, q);
      }
    }
  }

  lemma UntouchedByOneself(h: Hub, c: Conn, qid: string)
    requires c < |h.chans| && Known(h, Cached(h, qid).sub)
    ensures TakePlace(h, c, qid).chans[c] == h.chans[c] && TakePlace(h, c, qid).vault == h.vault
  {
  }

  /** Frames were offered, but neither NEW_OK nor SUB_OK. */
  ghost predicate OnlyOthers(h: Hub, h': Hub, c: Conn)
    requires c < |h.chans|
  {
    && |h'.chans| == |h.chans|
    && forall i :: |h.chans[c].tried| <= i < |h'.chans[c].tried| ==>
         !h'.chans[c].tried[i].NewOk? && !h'.chans[c].tried[i].SubOk?
  }

  lemma SendToldOf(h: Hub, c: Conn, env: Envelope, now: int, o: Oracle)
    requires Indexed(h) && c < |h.chans|
    ensures OnlyOthers(h, HandleSend(h, c, env, now, o).hub, c)
  {
    if Accepts(h, env, o) {
      var qid, mid, e := env.qid, MessageId(env, o), Cached(h, env.qid);
      var h2 := h.(queues := h.queues[qid := e],
        vault := Ledger.Touch(Ledger.Accept(h.vault, mid, qid, env.payload, now), qid, now));
      assert HandleSend(h, c, env, now, o) == Forward(h2, c, e.sub, qid, mid, env.payload, o);
      ForwardToldOf(h2, c, e.sub, qid, mid, env.payload, o);
    }
  }

  lemma ForwardToldOf(h: Hub, c: Conn, sub: Option<Conn>, qid: string, mid: string, payload: Payload, o: Oracle)
    requires c < |h.chans| && Known(h, sub)
    ensures OnlyOthers(h, Forward(h, c, sub, qid, mid, payload, o).hub, c)
  {
  }

  // ---- a used queue is kept for a week ----

  /** q was used at t0 or later, or newly stored and never used. */
  predicate Recent(t: int, t0: int) {
    t0 <= t || t == 0
  }

  lemma {:induction false} UseIsRemembered(p: Process, ss: seq<Step>, p': Process, q: string, t: int, t0: int)
    requires ProcessInv(p) && Runs(p, ss, p') && Recent(t, t0) && 0 < t0 <= p.now
    ensures Recent(LastUse(p, ss, p', q, t), t0) && p.now <= p'.now
    decreases ss
  {
    if ss != [] {
      StepKeeps(p, ss[0]);
      ClockRuns(p, ss[0]);
      UseIsRemembered(Apply(p, ss[0]), ss[1..], p', q, UsedAfter(p, ss[0], q, t), t0);
    }
  }

  lemma ClockRuns(p: Process, s: Step)
    requires Enabled(p, s)
    ensures p.now <= Apply(p, s).now
  {
  }

  /** No message of q expires, and q is not removed. */
  ghost predicate Spares(v: Vault, v': Vault, q: string) {
    && (q in v.db.queues ==> q in v'.db.queues)
    && forall n :: n in v'.expired - v.expired ==> n < |v'.log| && v'.log[n].qid != q
  }

  lemma EarlyExpirySpares(v: Vault, cutoff: int, q: string)
    requires Ledger.Sound(v) && (q in v.db.queues ==> !(0 < v.db.queues[q].lastActive < cutoff))
    ensures Spares(v, Ledger.ExpireMessages(v, cutoff), q)
  {
    var v' := Ledger.ExpireMessages(v, cutoff);
    forall n | n in v'.expired - v.expired ensures n < |v.log| && v.log[n].qid != q {
      var r :| r in v.db.rows && r.mid in v.number && v.number[r.mid] == n;
      assert Ledger.Booked(v, r);
      ExpiryIsOfQueues(v, cutoff, r);
    }
  }

  /** A sweep called at time `at` spares the messages of q, and q. */
  ghost predicate SparedAt(p: Process, q: string, at: int) {
    && (Enabled(p, SweepMessages(at)) ==> Spares(p.hub.vault, Apply(p, SweepMessages(at)).hub.vault, q))
    && (Enabled(p, SweepQueues) && p.sweeper.at == at ==> Spares(p.hub.vault, Apply(p, SweepQueues).hub.vault, q))
  }

  lemma RecentIsSpared(p: Process, q: string, t0: int, at: int)
    requires ProcessInv(p) && at <= t0 + 604800
    requires q in p.hub.vault.db.queues ==> Recent(p.hub.vault.db.queues[q].lastActive, t0)
    ensures SparedAt(p, q, at)
  {
    EarlyExpirySpares(p.hub.vault, at - QUEUE_TTL, q);
  }

  /** Whatever happens after a use of q, no sweep that is called within a week of it touches q
      or its messages. */
  lemma EarlySweepsSpareUsedQueues(p: Process, s: Step, q: string, ss: seq<Step>, p': Process, at: int)
    requires ProcessInv(p) && Enabled(p, s) && Used(p, s, q) && Runs(Apply(p, s), ss, p') && at <= p.now + 604800
    ensures SparedAt(p', q, at)
  {
    UsedThenDated(p, s, q, ss, p');
    RecentIsSpared(p', q, p.now, at);
  }

  lemma UsedThenDated(p: Process, s: Step, q: string, ss: seq<Step>, p': Process)
    requires ProcessInv(p) && Enabled(p, s) && Used(p, s, q) && Runs(Apply(p, s), ss, p')
    ensures ProcessInv(p') && (q in p'.hub.vault.db.queues ==> Recent(p'.hub.vault.db.queues[q].lastActive, p.now))
  {
    UsedIsInUse(p, s, q);
    StepKeeps(p, s);
    RunKeeps(Apply(p, s), ss, p');
    ClockRuns(p, s);
    var t := if q in p.hub.vault.db.queues then p.hub.vault.db.queues[q].lastActive else 0;
    StepFollows(p, s, q, t);
    RunFollows(Apply(p, s), ss, p', q, p.now);
    UseIsRemembered(Apply(p, s), ss, p', q, p.now, p.now);
  }

  /** Every sweep of ss is called by time `until`. */
  ghost predicate SweepsBy(ss: seq<Step>, until: int) {
    forall i :: 0 <= i < |ss| && ss[i].SweepMessages? ==> ss[i].at <= until
  }

  /** What a run with early sweeps keeps of q. */
  ghost predicate Keeps(p: Process, p': Process, q: string) {
    q in p'.hub.vault.db.queues && p.hub.vault.log <= p'.hub.vault.log && Spares(p.hub.vault, p'.hub.vault, q)
  }

  /** q is stored, was used since t0, and the sweep at work, if any, was called by then. */
  ghost predicate Safe(p: Process, q: string, t0: int, until: int) {
    && q in p.hub.vault.db.queues && t0 <= p.hub.vault.db.queues[q].lastActive
    && (p.sweeper.Idle? || p.sweeper.at <= until)
  }

  lemma SafeStep(p: Process, s: Step, q: string, t0: int)
    requires ProcessInv(p) && Enabled(p, s) && 0 < t0 <= p.now && Safe(p, q, t0, t0 + 604800)
    requires s.SweepMessages? ==> s.at <= t0 + 604800
    ensures Safe(Apply(p, s), q, t0, t0 + 604800) && Keeps(p, Apply(p, s), q)
  {
    StepFollows(p, s, q, p.hub.vault.db.queues[q].lastActive);
    StepKeeps(p, s);
    Guarantees.LedgerMovesOnlySo(p, s);
    if s.SweepMessages? { EarlyExpirySpares(p.hub.vault, s.at - QUEUE_TTL, q); }
  }

  lemma {:induction false} SafeRun(p: Process, ss: seq<Step>, p': Process, q: string, t0: int)
    requires ProcessInv(p) && Runs(p, ss, p') && 0 < t0 <= p.now && Safe(p, q, t0, t0 + 604800)
    requires SweepsBy(ss, t0 + 604800)
    ensures ProcessInv(p') && Keeps(p, p', q)
    decreases ss
  {
    if ss != [] {
      var p1 := Apply(p, ss[0]);
      SafeStep(p, ss[0], q, t0);
      StepKeeps(p, ss[0]);
      ClockRuns(p, ss[0]);
      assert forall i :: 0 <= i < |ss[1..]| ==> ss[1..][i] == ss[i + 1];
      SafeRun(p1, ss[1..], p', q, t0);
    }
  }

  /** While every sweep is called within a week of the use, q stays in the tables and none of
      its messages expires. */
  lemma UsedQueueIsKept(p: Process, s: Step, q: string, ss: seq<Step>, p': Process)
    requires ProcessInv(p) && Enabled(p, s) && Used(p, s, q) && q in Apply(p, s).hub.vault.db.queues
    requires Runs(Apply(p, s), ss, p') && SweepsBy(ss, p.now + 604800)
    ensures Keeps(Apply(p, s), p', q)
  {
    UsedThenDated(p, s, q, [], Apply(p, s));
    UsedIsInUse(p, s, q);
    StepKeeps(p, s);
    ClockRuns(p, s);
    var t := if q in p.hub.vault.db.queues then p.hub.vault.db.queues[q].lastActive else 0;
    StepFollows(p, s, q, t);
    SafeRun(Apply(p, s), ss, p', q, p.now);
  }

  lemma {:induction false} SweepsAreCalledBefore(p: Process, ss: seq<Step>, p': Process)
    requires Runs(p, ss, p')
    ensures p.now <= p'.now && SweepsBy(ss, p'.now)
    decreases ss
  {
    if ss != [] {
      ClockRuns(p, ss[0]);
      SweepsAreCalledBefore(Apply(p, ss[0]), ss[1..], p');
      assert forall i :: 0 < i < |ss| ==> ss[i] == ss[1..][i - 1];
    }
  }

  /** A message accepted at time t is stored until it is acknowledged, for a week at least,
      whatever connections, sweeps, restarts and crashes do meanwhile. */
  lemma AcceptedForAWeek(p: Process, s: Step, ss: seq<Step>, p': Process)
    requires ProcessInv(p) && Enabled(p, s) && s.Incoming? && p.hub.vault.log < Apply(p, s).hub.vault.log
    requires Runs(Apply(p, s), ss, p') && p'.now <= p.now + 604800
    ensures var n := |p.hub.vault.log|;
      && n < |p'.hub.vault.log| && p'.hub.vault.log[n] == Apply(p, s).hub.vault.log[n]
      && (n in Ledger.Stored(p'.hub.vault) || n in p'.hub.vault.acked)
  {
    var p1, n := Apply(p, s), |p.hub.vault.log|;
    var q := p1.hub.vault.log[n].qid;
    assert Used(p, s, q);
    UsedIsInUse(p, s, q);
    AcceptedIsStored(p, s, n);
    StepKeeps(p, s);
    RunKeeps(p1, ss, p');
    SweepsAreCalledBefore(p1, ss, p');
    UsedQueueIsKept(p, s, q, ss, p');
  }

  lemma AcceptedIsStored(p: Process, s: Step, n: nat)
    requires ProcessInv(p) && Enabled(p, s) && s.Incoming? && p.hub.vault.log < Apply(p, s).hub.vault.log
    requires n == |p.hub.vault.log|
    ensures var v := Apply(p, s).hub.vault; v.log[n].qid in v.db.queues && n !in v.expired
  {
    StepKeeps(p, s);
    Guarantees.LedgerMovesOnlySo(p, s);
    SendStores(p.hub, s.c, Parse(s.m).value, p.now, s.o);
    assert n !in p.hub.vault.expired;
  }
}
