/** How fast a backlog drains: sixteen slots, one of them taken by SUB_OK, so every fresh
    connection that subscribes, reads and acknowledges removes at least the oldest fifteen. */
module Drain {
  import opened Ids
  import opened Frames
  import opened Channel
  import opened Relay
  import opened Steps
  import opened Invariants
  import opened Guarantees
  import Tables
  import Ledger

  const BATCH := 15

  function Backlog(p: Process, qid: string): seq<Tables.Row> {
    Tables.Undelivered(p.hub.vault.db, qid)
  }

  // ---- the replay on a fresh channel ----

  function Min(a: int, b: int): int { if a < b then a else b }

  /** The first fifteen rows of the replay find room behind SUB_OK, and nothing that found
      room is taken back. */
  lemma {:induction false} ReplayBatch(ch: Chan, qid: string, rows: seq<Tables.Row>, o: Oracle, n: nat)
    requires n <= |rows| && |ch.hist| == 1 && ch.popped == 0
    ensures var ch' := Replay(ch, qid, rows, o, n);
      && ch'.popped <= |ch'.hist| && ch'.closes == ch.closes
      && 1 + Min(n, BATCH) <= |ch'.hist| <= 1 + n && ch'.hist[0] == ch.hist[0]
      && (forall i :: 0 <= i < Min(n, BATCH) ==> ch'.hist[1 + i] == DeliverRow(qid, rows[i]))
  {
    if n > 0 {
      ReplayBatch(ch, qid, rows, o, n - 1);
      var h0, h1 := Replay(ch, qid, rows, o, n - 1).hist, Replay(ch, qid, rows, o, n).hist;
      assert h1 == h0 || h1 == h0 + [DeliverRow(qid, rows[n - 1])];
    }
  }

  /** f delivers one of the rows. */
  ghost predicate DeliversRow(f: Frame, qid: string, rows: seq<Tables.Row>) {
    exists r :: r in rows && f == DeliverRow(qid, r)
  }

  lemma {:induction false} ReplayDelivers(ch: Chan, qid: string, rows: seq<Tables.Row>, o: Oracle, n: nat)
    requires n <= |rows| && |ch.hist| == 1
    ensures var hist := Replay(ch, qid, rows, o, n).hist;
      |hist| >= 1 && forall i :: 1 <= i < |hist| ==> DeliversRow(hist[i], qid, rows)
  {
    if n > 0 {
      ReplayDelivers(ch, qid, rows, o, n - 1);
      var h0, h1 := Replay(ch, qid, rows, o, n - 1).hist, Replay(ch, qid, rows, o, n).hist;
      assert h1 == h0 || h1 == h0 + [DeliverRow(qid, rows[n - 1])];
      assert rows[n - 1] in rows && DeliversRow(DeliverRow(qid, rows[n - 1]), qid, rows);
    }
  }

  /** When the write pump takes nothing meanwhile, it is exactly fifteen. */
  lemma {:induction false} ReplayBatchIsTight(ch: Chan, qid: string, rows: seq<Tables.Row>, o: Oracle, n: nat)
    requires n <= |rows| && |ch.hist| == 1 && ch.popped == 0 && o.takes == []
    ensures |Replay(ch, qid, rows, o, n).hist| == 1 + Min(n, BATCH) && Replay(ch, qid, rows, o, n).popped == 0
  {
    if n > 0 { ReplayBatchIsTight(ch, qid, rows, o, n - 1); }
  }

  // ---- a queue that only loses messages ----

  lemma {:induction false} FiltersCompose(rows: seq<Tables.Row>, f: Tables.Row -> bool, g: Tables.Row -> bool)
    ensures Tables.Filter(Tables.Filter(rows, f), g) == Tables.Filter(rows, (r: Tables.Row) => f(r) && g(r))
  {
    if rows != [] {
      FiltersCompose(rows[..|rows| - 1], f, g);
      var head, last := Tables.Filter(rows[..|rows| - 1], f), rows[|rows| - 1];
      if f(last) { assert (head + [last])[..|head|] == head; }
      else { assert head + [] == head; }
    }
  }

  lemma FiltersCommute(rows: seq<Tables.Row>, f: Tables.Row -> bool, g: Tables.Row -> bool)
    ensures Tables.Filter(Tables.Filter(rows, f), g) == Tables.Filter(Tables.Filter(rows, g), f)
  {
    FiltersCompose(rows, f, g);
    FiltersCompose(rows, g, f);
    Tables.SameSelection(rows, (r: Tables.Row) => f(r) && g(r), (r: Tables.Row) => g(r) && f(r));
  }

  lemma {:induction false} FilterInTwo(a: seq<Tables.Row>, b: seq<Tables.Row>, keep: Tables.Row -> bool)
    ensures Tables.Filter(a + b, keep) == Tables.Filter(a, keep) + Tables.Filter(b, keep)
  {
    if b == [] {
      assert a + b == a;
    } else {
      var init := b[..|b| - 1];
      assert (a + b)[..|a + b| - 1] == a + init;
      FilterInTwo(a, init, keep);
    }
  }

  lemma {:induction false} FilterNone(rows: seq<Tables.Row>, keep: Tables.Row -> bool)
    requires forall r :: r in rows ==> !keep(r)
    ensures Tables.Filter(rows, keep) == []
  {
    if rows != [] { FilterNone(rows[..|rows| - 1], keep); }
  }

  lemma {:induction false} FilterShortens(rows: seq<Tables.Row>, keep: Tables.Row -> bool)
    ensures |Tables.Filter(rows, keep)| <= |rows|
  {
    if rows != [] { FilterShortens(rows[..|rows| - 1], keep); }
  }

  /** Removing the first k of a list, and perhaps others, leaves at most the rest. */
  lemma PrefixGone(rows: seq<Tables.Row>, keep: Tables.Row -> bool, k: nat)
    requires k <= |rows| && forall i :: 0 <= i < k ==> !keep(rows[i])
    ensures Tables.Filter(rows, keep) == Tables.Filter(rows[k..], keep)
    ensures |Tables.Filter(rows, keep)| <= |rows| - k
  {
    assert rows == rows[..k] + rows[k..];
    FilterInTwo(rows[..k], rows[k..], keep);
    FilterNone(rows[..k], keep);
    FilterShortens(rows[k..], keep);
  }

  /** b is a without some of its rows. */
  ghost predicate Thinned(a: seq<Tables.Row>, b: seq<Tables.Row>) {
    exists keep :: b == Tables.Filter(a, keep)
  }

  lemma ThinnedBy(a: seq<Tables.Row>, keep: Tables.Row -> bool)
    ensures Thinned(a, Tables.Filter(a, keep))
  {
  }

  lemma NotThinned(a: seq<Tables.Row>)
    ensures Thinned(a, a)
  {
    Tables.FilterAll(a, _ => true);
  }

  lemma ThinnedTwice(a: seq<Tables.Row>, b: seq<Tables.Row>, c: seq<Tables.Row>)
    requires Thinned(a, b) && Thinned(b, c)
    ensures Thinned(a, c)
  {
    var f :| b == Tables.Filter(a, f);
    var g :| c == Tables.Filter(b, g);
    FiltersCompose(a, f, g);
  }

  lemma ThinnedIsPart(a: seq<Tables.Row>, b: seq<Tables.Row>)
    requires Thinned(a, b)
    ensures |b| <= |a| && forall r :: r in b ==> r in a
  {
    var keep :| b == Tables.Filter(a, keep);
    FilterShortens(a, keep);
  }

  /** Of the first k nothing is left. */
  lemma ThinnedPrefix(a: seq<Tables.Row>, b: seq<Tables.Row>, k: nat)
    requires Thinned(a, b) && k <= |a| && forall i, r :: 0 <= i < k && r in b ==> r.mid != a[i].mid
    ensures |b| <= |a| - k
  {
    var keep :| b == Tables.Filter(a, keep);
    forall i | 0 <= i < k ensures !keep(a[i]) { assert a[i] in a; }
    PrefixGone(a, keep, k);
  }

  /** Exactly the first ones, when the ids are those of the first ones. */
  lemma PrefixIsAcknowledged(v: Vault, rows: seq<Tables.Row>, mids: seq<string>)
    requires Ledger.Ascending(v, rows) && |mids| <= |rows| && forall i :: 0 <= i < |mids| ==> mids[i] == rows[i].mid
    ensures Tables.Filter(rows, (r: Tables.Row) => r.mid !in mids) == rows[|mids|..]
  {
    var kept := (r: Tables.Row) => r.mid !in mids;
    forall i | 0 <= i < |mids| ensures !kept(rows[i]) { assert mids[i] == rows[i].mid; }
    forall j | |mids| <= j < |rows| ensures kept(rows[j]) { OthersAreNotAcknowledged(v, rows, mids, j); }
    SuffixKept(rows, kept, |mids|);
  }

  lemma OthersAreNotAcknowledged(v: Vault, rows: seq<Tables.Row>, mids: seq<string>, j: nat)
    requires Ledger.Ascending(v, rows) && |mids| <= j < |rows| && forall i :: 0 <= i < |mids| ==> mids[i] == rows[i].mid
    ensures rows[j].mid !in mids
  {
    forall i | 0 <= i < |mids| ensures mids[i] != rows[j].mid { assert Ledger.Earlier(v, rows[i], rows[j]); }
  }

  lemma SuffixKept(rows: seq<Tables.Row>, keep: Tables.Row -> bool, k: nat)
    requires k <= |rows| && (forall i :: 0 <= i < k ==> !keep(rows[i])) && forall j :: k <= j < |rows| ==> keep(rows[j])
    ensures Tables.Filter(rows, keep) == rows[k..]
  {
    PrefixGone(rows, keep, k);
    Tables.FilterAll(rows[k..], keep);
  }

  function OfQueue(qid: string): Tables.Row -> bool {
    (r: Tables.Row) => r.qid == qid && !r.delivered
  }

  lemma BacklogIsSelection(p: Process, qid: string)
    requires ProcessInv(p)
    ensures Backlog(p, qid) == Tables.Filter(p.hub.vault.db.rows, OfQueue(qid))
  {
    Ledger.ReplayIsSelection(p.hub.vault, p.now, qid);
    Tables.SameSelection(p.hub.vault.db.rows, (r: Tables.Row) => r.qid == qid && !r.delivered, OfQueue(qid));
  }

  function Acknowledging(c: Conn, qid: string, mid: string, o: Oracle): Step {
    Incoming(c, Wire(AckCommand(qid, mid)), o)
  }

  /** The ids of the DELIVERs behind SUB_OK, in the order received. */
  function Mids(hist: seq<Frame>): seq<string>
    requires forall i :: 0 <= i < |hist| ==> hist[i].Deliver?
  {
    seq(|hist|, i requires 0 <= i < |hist| => hist[i].mid)
  }

  predicate Faultless(o: Oracle) {
    !o.existsFails && !o.queryFails && !o.writeFails && WellDrawn(o)
  }

  // ---- bystanders ----

  /** A command of somebody else that is neither a SEND to nor a SUB of the queue; when
      quiet, no ACK either. */
  predicate Harmless(m: Message, qid: string, quiet: bool) {
    Parse(m).Some? ==>
      var env := Parse(m).value;
      && ((env.kind == SEND || env.kind == SUB) ==> env.qid != qid)
      && (quiet ==> env.kind != ACK)
  }

  /** What may happen in between: write pumps take frames, time passes, other connections
      come and go, and issue harmless commands that do not crash the server. */
  ghost predicate Bystanding(p: Process, s: Step, c: Conn, qid: string, quiet: bool)
    requires Enabled(p, s)
  {
    match s
    case Pop(_) => true
    case Tick(_) => true
    case Connect => true
    case Disconnect(d) => d != c
    case Incoming(d, m, o) => d != c && Harmless(m, qid, quiet) && Read(p.hub, d, m, p.now, o).Alive?
    case _ => false
  }

  ghost predicate StandsBy(p: Process, ss: seq<Step>, c: Conn, qid: string, quiet: bool, p': Process)
    decreases ss
  {
    if ss == [] then p' == p
    else
      && Enabled(p, ss[0]) && Bystanding(p, ss[0], c, qid, quiet)
      && StandsBy(Apply(p, ss[0]), ss[1..], c, qid, quiet, p')
  }

  ghost predicate Waits(p: Process, c: Conn, qid: string, quiet: bool, p': Process) {
    exists ss :: StandsBy(p, ss, c, qid, quiet, p')
  }

  /** c subscribes to no other queue. */
  ghost predicate Devoted(h: Hub, c: Conn, qid: string) {
    forall q :: q in h.queues && h.queues[q].sub == Some(c) ==> q == qid
  }

  /** c has been sent nothing and has no role. */
  ghost predicate Unnoticed(h: Hub, c: Conn) {
    && c in h.clients && c < |h.chans| && h.chans[c] == NEW_CHAN
    && forall q :: q in h.queues ==> h.queues[q].owner != Some(c) && h.queues[q].sub != Some(c)
  }

  /** Others leave connection c as it is. */
  ghost predicate Spared(h: Hub, g: Hub, c: Conn)
    requires c < |h.chans|
  {
    && |h.chans| <= |g.chans| && g.chans[c].hist == h.chans[c].hist
    && (h.chans[c] == NEW_CHAN ==> g.chans[c] == NEW_CHAN) && (c in h.clients ==> c in g.clients)
    && (forall q :: q in g.queues && g.queues[q].sub == Some(c) ==> q in h.queues && h.queues[q].sub == Some(c))
    && (forall q :: q in g.queues && g.queues[q].owner == Some(c) ==> q in h.queues && h.queues[q].owner == Some(c))
  }

  lemma SubSpares(h: Hub, d: Conn, q2: string, now: int, o: Oracle, c: Conn, qid: string)
    requires d < |h.chans| && c < |h.chans| && c != d && q2 != qid && Devoted(h, c, qid) && Known(h, Cached(h, q2).sub)
    ensures Spared(h, HandleSub(h, d, q2, now, o).hub, c)
  {
    assert Cached(h, q2).sub != Some(c);
    if !Refuses(h, d, q2, o) {
      TakePlaceSpares(h, d, q2, c);
      AnswerSpares(TakePlace(h, d, q2), d, q2, now, o, c);
    }
  }

  lemma TakePlaceSpares(h: Hub, d: Conn, q2: string, c: Conn)
    requires d < |h.chans| && c < |h.chans| && c != d && Known(h, Cached(h, q2).sub) && Cached(h, q2).sub != Some(c)
    ensures Spared(h, TakePlace(h, d, q2), c)
  {
  }

  lemma AnswerSpares(h: Hub, d: Conn, q2: string, now: int, o: Oracle, c: Conn)
    requires d < |h.chans| && c < |h.chans| && c != d
    ensures var g := Answer(h, d, q2, now, o).hub;
      |g.chans| == |h.chans| && g.chans[c] == h.chans[c] && g.clients == h.clients && g.queues == h.queues
  {
  }

  lemma SendSpares(h: Hub, d: Conn, env: Envelope, now: int, o: Oracle, c: Conn, qid: string)
    requires d < |h.chans| && c < |h.chans| && c != d && env.qid != qid && Devoted(h, c, qid)
    requires Known(h, Cached(h, env.qid).sub)
    ensures Spared(h, HandleSend(h, d, env, now, o).hub, c)
  {
    assert Cached(h, env.qid).sub != Some(c);
    if Accepts(h, env, o) {
      var h2 := h.(queues := h.queues[env.qid := Cached(h, env.qid)],
        vault := Ledger.Touch(Ledger.Accept(h.vault, MessageId(env, o), env.qid, env.payload, now), env.qid, now));
      ForwardSpares(h2, d, Cached(h, env.qid).sub, env.qid, MessageId(env, o), env.payload, o, c);
    }
  }

  lemma ForwardSpares(h: Hub, d: Conn, sub: Option<Conn>, qid: string, mid: string, payload: Payload, o: Oracle,
                      c: Conn)
    requires d < |h.chans| && c < |h.chans| && c != d && Known(h, sub) && sub != Some(c)
    ensures var g := Forward(h, d, sub, qid, mid, payload, o).hub;
      |g.chans| == |h.chans| && g.chans[c] == h.chans[c] && g.clients == h.clients && g.queues == h.queues
  {
  }

  lemma ReadSpares(h: Hub, d: Conn, m: Message, now: int, o: Oracle, c: Conn, qid: string)
    requires Indexed(h) && d < |h.chans| && c < |h.chans| && c != d && Devoted(h, c, qid) && Harmless(m, qid, false)
    ensures Spared(h, Read(h, d, m, now, o).hub, c)
  {
    if Parse(m).Some? {
      var env := Parse(m).value;
      match env.kind
      case SUB => SubSpares(h, d, env.qid, now, o, c, qid);
      case SEND => SendSpares(h, d, env, now, o, c, qid);
      case _ =>
    }
  }

  /** What harmless commands do to the queue. */
  ghost predicate Dwindles(v: Vault, v': Vault, qid: string, quiet: bool) {
    var rows, rows' := Tables.Filter(v.db.rows, OfQueue(qid)), Tables.Filter(v'.db.rows, OfQueue(qid));
    && Thinned(rows, rows') && (quiet ==> rows' == rows)
    && (qid in v.db.queues ==> qid in v'.db.queues)
  }

  lemma SameQueue(v: Vault, v': Vault, qid: string, quiet: bool)
    requires v'.db.rows == v.db.rows && (qid in v.db.queues ==> qid in v'.db.queues)
    ensures Dwindles(v, v', qid, quiet)
  {
    NotThinned(Tables.Filter(v.db.rows, OfQueue(qid)));
  }

  lemma AckDwindles(v: Vault, mid: string, qid: string)
    ensures Dwindles(v, Ledger.Acknowledge(v, mid), qid, false)
    ensures Tables.Filter(Ledger.Acknowledge(v, mid).db.rows, OfQueue(qid))
         == Tables.Filter(Tables.Filter(v.db.rows, OfQueue(qid)), (r: Tables.Row) => r.mid != mid)
  {
    var others := (r: Tables.Row) => r.mid != mid;
    FiltersCommute(v.db.rows, others, OfQueue(qid));
    ThinnedBy(Tables.Filter(v.db.rows, OfQueue(qid)), others);
  }

  lemma SendDwindles(v: Vault, mid: string, q2: string, payload: Payload, now: int, qid: string, quiet: bool)
    requires q2 != qid
    ensures Dwindles(v, Ledger.Touch(Ledger.Accept(v, mid, q2, payload, now), q2, now), qid, quiet)
  {
    var v' := Ledger.Accept(v, mid, q2, payload, now);
    var last := v'.db.rows[|v.db.rows|];
    FilterInTwo(v.db.rows, [last], OfQueue(qid));
    FilterNone([last], OfQueue(qid));
    NotThinned(Tables.Filter(v.db.rows, OfQueue(qid)));
  }

  lemma ReadDwindles(h: Hub, d: Conn, m: Message, now: int, o: Oracle, qid: string, quiet: bool)
    requires Indexed(h) && d < |h.chans| && Harmless(m, qid, quiet)
    ensures Dwindles(h.vault, Read(h, d, m, now, o).hub.vault, qid, quiet)
  {
    SameQueue(h.vault, h.vault, qid, quiet);
    if Parse(m).Some? {
      var env := Parse(m).value;
      match env.kind
      case NEW => NewDwindles(h, d, env, now, o, qid, quiet);
      case SUB => SubDwindles(h, d, env.qid, now, o, qid, quiet);
      case SEND => PostDwindles(h, d, env, now, o, qid, quiet);
      case ACK => AckDwindles(h.vault, env.mid, qid);
      case _ =>
    }
  }

  lemma NewDwindles(h: Hub, d: Conn, env: Envelope, now: int, o: Oracle, qid: string, quiet: bool)
    requires d < |h.chans|
    ensures Dwindles(h.vault, HandleNew(h, d, env, now, o).hub.vault, qid, quiet)
  {
    SameQueue(h.vault, HandleNew(h, d, env, now, o).hub.vault, qid, quiet);
  }

  lemma SubDwindles(h: Hub, d: Conn, q2: string, now: int, o: Oracle, qid: string, quiet: bool)
    requires d < |h.chans| && Known(h, Cached(h, q2).sub)
    ensures Dwindles(h.vault, HandleSub(h, d, q2, now, o).hub.vault, qid, quiet)
  {
    SubStores(h, d, q2, now, o);
    SameQueue(h.vault, HandleSub(h, d, q2, now, o).hub.vault, qid, quiet);
  }

  lemma PostDwindles(h: Hub, d: Conn, env: Envelope, now: int, o: Oracle, qid: string, quiet: bool)
    requires d < |h.chans| && Known(h, Cached(h, env.qid).sub) && env.qid != qid
    ensures Dwindles(h.vault, HandleSend(h, d, env, now, o).hub.vault, qid, quiet)
  {
    SendStores(h, d, env, now, o);
    SameQueue(h.vault, h.vault, qid, quiet);
    SendDwindles(h.vault, MessageId(env, o), env.qid, env.payload, now, qid, quiet);
  }

  /** What waiting leaves for connection c and the queue. */
  ghost predicate Steady(p: Process, c: Conn, qid: string, quiet: bool, p': Process)
    requires c < |p.hub.chans|
  {
    && ProcessInv(p') && Spared(p.hub, p'.hub, c) && Dwindles(p.hub.vault, p'.hub.vault, qid, quiet)
    && (c in p.readers ==> c in p'.readers)
  }

  lemma LeavingSpares(h: Hub, d: Conn, c: Conn)
    requires d < |h.chans| && c < |h.chans| && c != d
    ensures Spared(h, Unregister(h, d), c)
  {
  }

  lemma StepIsSteady(p: Process, s: Step, c: Conn, qid: string, quiet: bool)
    requires ProcessInv(p) && Enabled(p, s) && Bystanding(p, s, c, qid, quiet)
    requires c < |p.hub.chans| && Devoted(p.hub, c, qid)
    ensures Steady(p, c, qid, quiet, Apply(p, s))
  {
    StepKeeps(p, s);
    match s
    case Incoming(d, m, o) =>
      ReadSpares(p.hub, d, m, p.now, o, c, qid);
      ReadDwindles(p.hub, d, m, p.now, o, qid, quiet);
    case Disconnect(d) =>
      LeavingSpares(p.hub, d, c);
      SameQueue(p.hub.vault, p.hub.vault, qid, quiet);
    case _ => SameQueue(p.hub.vault, p.hub.vault, qid, quiet);
  }

  lemma SteadyTwice(p: Process, p1: Process, p2: Process, c: Conn, qid: string, quiet: bool)
    requires c < |p.hub.chans| <= |p1.hub.chans| && Steady(p, c, qid, quiet, p1) && Steady(p1, c, qid, quiet, p2)
    ensures Steady(p, c, qid, quiet, p2)
  {
    ThinnedTwice(Tables.Filter(p.hub.vault.db.rows, OfQueue(qid)), Tables.Filter(p1.hub.vault.db.rows, OfQueue(qid)),
                 Tables.Filter(p2.hub.vault.db.rows, OfQueue(qid)));
  }

  lemma {:induction false} RunIsSteady(p: Process, ss: seq<Step>, c: Conn, qid: string, quiet: bool, p': Process)
    requires ProcessInv(p) && StandsBy(p, ss, c, qid, quiet, p') && c < |p.hub.chans| && Devoted(p.hub, c, qid)
    ensures Steady(p, c, qid, quiet, p') && Devoted(p'.hub, c, qid)
    decreases ss
  {
    if ss == [] {
      SameQueue(p.hub.vault, p.hub.vault, qid, quiet);
    } else {
      var p1 := Apply(p, ss[0]);
      StepIsSteady(p, ss[0], c, qid, quiet);
      RunIsSteady(p1, ss[1..], c, qid, quiet, p');
      SteadyTwice(p, p1, p', c, qid, quiet);
    }
  }

  lemma WaitingIsSteady(p: Process, c: Conn, qid: string, quiet: bool, p': Process)
    requires ProcessInv(p) && Waits(p, c, qid, quiet, p') && c < |p.hub.chans| && Devoted(p.hub, c, qid)
    ensures Steady(p, c, qid, quiet, p') && Devoted(p'.hub, c, qid)
    ensures Thinned(Backlog(p, qid), Backlog(p', qid)) && (quiet ==> Backlog(p', qid) == Backlog(p, qid))
  {
    var ss :| StandsBy(p, ss, c, qid, quiet, p');
    RunIsSteady(p, ss, c, qid, quiet, p');
    BacklogIsSelection(p, qid);
    BacklogIsSelection(p', qid);
  }

  lemma NoWaiting(p: Process, c: Conn, qid: string, quiet: bool)
    ensures Waits(p, c, qid, quiet, p)
  {
    assert StandsBy(p, [], c, qid, quiet, p);
  }

  // ---- a round ----

  /** p after connection c has acknowledged mids in order. */
  ghost predicate AcksTo(p: Process, c: Conn, qid: string, mids: seq<string>, o: Oracle, quiet: bool, p': Process)
    decreases |mids|
  {
    if mids == [] then p' == p
    else
      && Enabled(p, Acknowledging(c, qid, mids[0], o))
      && exists p1 :: Waits(Apply(p, Acknowledging(c, qid, mids[0], o)), c, qid, quiet, p1)
                   && AcksTo(p1, c, qid, mids[1..], o, quiet, p')
  }

  /** One round: a client connects afresh, subscribes, reads all it is sent, acknowledges
      each message, and disconnects, with bystanders everywhere in between. o decides how
      much the write pump takes during the replay. */
  ghost predicate Round(p: Process, qid: string, o: Oracle, quiet: bool, p': Process) {
    exists p1, p2, p3 :: RoundVia(p, qid, o, quiet, p1, p2, p3, p')
  }

  ghost predicate RoundVia(p: Process, qid: string, o: Oracle, quiet: bool, p1: Process, p2: Process, p3: Process,
                           p': Process) {
    var c := |p.hub.chans|;
    && Enabled(p, Connect) && Waits(Apply(p, Connect), c, qid, quiet, p1)
    && Enabled(p1, Subscribing(c, qid, o)) && Waits(Apply(p1, Subscribing(c, qid, o)), c, qid, quiet, p2)
    && c < |p2.hub.chans| && p2.hub.chans[c].hist != []
    && (forall i :: 1 <= i < |p2.hub.chans[c].hist| ==> p2.hub.chans[c].hist[i].Deliver?)
    && AcksTo(p2, c, qid, Mids(p2.hub.chans[c].hist[1..]), o, quiet, p3)
    && Enabled(p3, Disconnect(c)) && Waits(Apply(p3, Disconnect(c)), c, qid, quiet, p')
  }

  /** The backlog can be drained: the queue is stored, ids can be sliced for the log. */
  ghost predicate Drainable(p: Process, qid: string) {
    && ProcessInv(p) && ValidQueueID(qid) && qid in p.hub.vault.db.queues
    && forall r :: r in Backlog(p, qid) ==> Sliceable(r.mid)
  }

  /** One acknowledgement only deletes. */
  lemma AckStep(p: Process, c: Conn, qid: string, mid: string, o: Oracle)
    requires ProcessInv(p) && c in p.readers && Faultless(o) && Sliceable(qid) && Sliceable(mid)
    ensures Enabled(p, Acknowledging(c, qid, mid, o))
    ensures Apply(p, Acknowledging(c, qid, mid, o)) == p.(hub := p.hub.(vault := Ledger.Acknowledge(p.hub.vault, mid)))
    ensures ProcessInv(Apply(p, Acknowledging(c, qid, mid, o)))
  {
    HubInvIsIndexed(p.hub, p.birth);
    StepKeeps(p, Acknowledging(c, qid, mid, o));
  }

  lemma AckBacklog(p: Process, p': Process, mid: string, qid: string)
    requires ProcessInv(p) && ProcessInv(p') && p'.hub.vault == Ledger.Acknowledge(p.hub.vault, mid)
    ensures Backlog(p', qid) == Tables.Filter(Backlog(p, qid), (r: Tables.Row) => r.mid != mid)
  {
    BacklogIsSelection(p, qid);
    BacklogIsSelection(p', qid);
    AckDwindles(p.hub.vault, mid, qid);
  }

  /** The server reads connection c, which subscribes to no other queue. */
  ghost predicate Reading(p: Process, c: Conn, qid: string) {
    ProcessInv(p) && c in p.readers && c < |p.hub.chans| && Devoted(p.hub, c, qid)
  }

  ghost predicate Kept(p: Process, p': Process, qid: string) {
    qid in p.hub.vault.db.queues ==> qid in p'.hub.vault.db.queues
  }

  /** Acknowledgements in sequence can be run. */
  lemma {:induction false} AcksRun(p: Process, c: Conn, qid: string, mids: seq<string>, o: Oracle, quiet: bool)
    returns (p': Process)
    requires ProcessInv(p) && c in p.readers && Faultless(o)
    requires Sliceable(qid) && forall m :: m in mids ==> Sliceable(m)
    ensures AcksTo(p, c, qid, mids, o, quiet, p')
    decreases |mids|
  {
    if mids == [] {
      p' := p;
    } else {
      AckStep(p, c, qid, mids[0], o);
      var p1 := Apply(p, Acknowledging(c, qid, mids[0], o));
      NoWaiting(p1, c, qid, quiet);
      p' := AcksRun(p1, c, qid, mids[1..], o, quiet);
    }
  }

  /** What acknowledging mids, and the bystanders meanwhile, leave of the backlog. */
  ghost predicate Reduced(rows: seq<Tables.Row>, mids: seq<string>, quiet: bool, rows': seq<Tables.Row>) {
    && Thinned(rows, rows') && (forall m, r :: m in mids && r in rows' ==> r.mid != m)
    && (quiet ==> rows' == Tables.Filter(rows, (r: Tables.Row) => r.mid !in mids))
  }

  lemma ReducedMore(rows: seq<Tables.Row>, mids: seq<string>, quiet: bool, rows1: seq<Tables.Row>,
                    rows': seq<Tables.Row>)
    requires mids != []
    requires var left := Tables.Filter(rows, (r: Tables.Row) => r.mid != mids[0]);
      Thinned(left, rows1) && (quiet ==> rows1 == left)
    requires Reduced(rows1, mids[1..], quiet, rows')
    ensures Reduced(rows, mids, quiet, rows')
  {
    var others, rest := (r: Tables.Row) => r.mid != mids[0], mids[1..];
    var left := Tables.Filter(rows, others);
    ThinnedBy(rows, others);
    ThinnedTwice(rows, left, rows1);
    ThinnedTwice(rows, rows1, rows');
    ThinnedIsPart(left, rows1);
    ThinnedIsPart(rows1, rows');
    assert forall m :: m in mids <==> m == mids[0] || m in rest;
    if quiet {
      var g := (r: Tables.Row) => r.mid !in rest;
      FiltersCompose(rows, others, g);
      Tables.SameSelection(rows, (r: Tables.Row) => others(r) && g(r), (r: Tables.Row) => r.mid !in mids);
    }
  }

  lemma {:induction false} AcksReduce(p: Process, c: Conn, qid: string, mids: seq<string>, o: Oracle, quiet: bool,
                                      p': Process)
    requires Reading(p, c, qid) && Faultless(o) && AcksTo(p, c, qid, mids, o, quiet, p')
    requires Sliceable(qid) && forall m :: m in mids ==> Sliceable(m)
    ensures Acked(p, c, qid, mids, quiet, p')
    decreases |mids|
  {
    if mids == [] {
      ReducedByNone(Backlog(p, qid), quiet);
    } else {
      var p1 := AckAndWait(p, c, qid, mids, o, quiet, p');
      AcksReduce(p1, c, qid, mids[1..], o, quiet, p');
      AckedMore(p, c, qid, mids, quiet, p1, p');
    }
  }

  ghost predicate Acked(p: Process, c: Conn, qid: string, mids: seq<string>, quiet: bool, p': Process) {
    Reading(p', c, qid) && Reduced(Backlog(p, qid), mids, quiet, Backlog(p', qid)) && Kept(p, p', qid)
  }

  lemma AckedMore(p: Process, c: Conn, qid: string, mids: seq<string>, quiet: bool, p1: Process, p': Process)
    requires mids != [] && Kept(p, p1, qid) && Acked(p1, c, qid, mids[1..], quiet, p')
    requires var left := Tables.Filter(Backlog(p, qid), (r: Tables.Row) => r.mid != mids[0]);
      Thinned(left, Backlog(p1, qid)) && (quiet ==> Backlog(p1, qid) == left)
    ensures Acked(p, c, qid, mids, quiet, p')
  {
    ReducedMore(Backlog(p, qid), mids, quiet, Backlog(p1, qid), Backlog(p', qid));
  }

  lemma ReducedByNone(rows: seq<Tables.Row>, quiet: bool)
    ensures Reduced(rows, [], quiet, rows)
  {
    NotThinned(rows);
    Tables.FilterAll(rows, (r: Tables.Row) => r.mid !in []);
  }

  lemma AckAndWait(p: Process, c: Conn, qid: string, mids: seq<string>, o: Oracle, quiet: bool, p': Process)
    returns (p1: Process)
    requires Reading(p, c, qid) && Faultless(o) && mids != [] && AcksTo(p, c, qid, mids, o, quiet, p')
    requires Sliceable(qid) && Sliceable(mids[0])
    ensures Reading(p1, c, qid) && AcksTo(p1, c, qid, mids[1..], o, quiet, p') && Kept(p, p1, qid)
    ensures var left := Tables.Filter(Backlog(p, qid), (r: Tables.Row) => r.mid != mids[0]);
      Thinned(left, Backlog(p1, qid)) && (quiet ==> Backlog(p1, qid) == left)
  {
    AckStep(p, c, qid, mids[0], o);
    var p0 := Apply(p, Acknowledging(c, qid, mids[0], o));
    AckBacklog(p, p0, mids[0], qid);
    p1 :| Waits(p0, c, qid, quiet, p1) && AcksTo(p1, c, qid, mids[1..], o, quiet, p');
    WaitingIsSteady(p0, c, qid, quiet, p1);
  }

  lemma FreshConnection(p: Process, qid: string)
    requires ProcessInv(p)
    ensures Enabled(p, Connect) && ProcessInv(Apply(p, Connect))
    ensures var p1, c := Apply(p, Connect), |p.hub.chans|;
      && c < |p1.hub.chans| && Unnoticed(p1.hub, c) && c in p1.readers && Devoted(p1.hub, c, qid)
      && p1.hub.vault == p.hub.vault
  {
    HubInvIsIndexed(p.hub, p.birth);
    StepKeeps(p, Connect);
  }

  lemma DwindlingIsDrainable(p: Process, p': Process, c: Conn, qid: string, quiet: bool)
    requires Drainable(p, qid) && c < |p.hub.chans| && Steady(p, c, qid, quiet, p')
    requires Thinned(Backlog(p, qid), Backlog(p', qid))
    ensures Drainable(p', qid)
  {
    ThinnedIsPart(Backlog(p, qid), Backlog(p', qid));
  }

  /** A SUB of a connection nobody has noticed replays the whole backlog to it. */
  lemma FreshSub(p: Process, c: Conn, qid: string, o: Oracle)
    requires Drainable(p, qid) && Faultless(o) && Unnoticed(p.hub, c) && c in p.readers
    ensures Enabled(p, Subscribing(c, qid, o))
    ensures var p' := Apply(p, Subscribing(c, qid, o));
      && ProcessInv(p') && c in p'.readers && c < |p'.hub.chans| && Devoted(p'.hub, c, qid)
      && p'.hub.vault == Ledger.Touch(p.hub.vault, qid, p.now)
      && p'.hub.chans[c] == Replay(Push(NEW_CHAN, SubOk(qid)), qid, Backlog(p, qid), o, |Backlog(p, qid)|)
  {
    HubInvIsIndexed(p.hub, p.birth);
    StepKeeps(p, Subscribing(c, qid, o));
    SubCrashes(p.hub, p.birth, c, qid, p.now, o);
    SubscribingIsSub(p, c, qid, o);
    SubReplays(p.hub, c, qid, p.now, o);
    GrantedIsDevoted(p.hub, c, qid, p.now, o);
  }

  lemma GrantedIsDevoted(h: Hub, c: Conn, qid: string, now: int, o: Oracle)
    requires c < |h.chans| && Known(h, Cached(h, qid).sub) && Unnoticed(h, c)
    ensures Devoted(HandleSub(h, c, qid, now, o).hub, c, qid)
  {
  }

  /** What a round's subscriber has been sent: the backlog at its SUB, as far as it fits;
      and that backlog is still there but for what bystanders acknowledged. */
  ghost predicate Sent(p1: Process, c: Conn, qid: string, o: Oracle, quiet: bool, p2: Process) {
    var rows := Backlog(p1, qid);
    && ProcessInv(p2) && c in p2.readers && c < |p2.hub.chans| && Devoted(p2.hub, c, qid)
    && p2.hub.chans[c].hist == Replay(Push(NEW_CHAN, SubOk(qid)), qid, rows, o, |rows|).hist
    && Thinned(rows, Backlog(p2, qid)) && (quiet ==> Backlog(p2, qid) == rows)
    && qid in p2.hub.vault.db.queues
  }

  lemma RoundConnects(p: Process, qid: string, o: Oracle, quiet: bool, p1: Process)
    requires Drainable(p, qid) && Enabled(p, Connect) && Waits(Apply(p, Connect), |p.hub.chans|, qid, quiet, p1)
    ensures Drainable(p1, qid) && Unnoticed(p1.hub, |p.hub.chans|) && |p.hub.chans| in p1.readers
    ensures Thinned(Backlog(p, qid), Backlog(p1, qid)) && (quiet ==> Backlog(p1, qid) == Backlog(p, qid))
  {
    var c := |p.hub.chans|;
    FreshConnection(p, qid);
    WaitingIsSteady(Apply(p, Connect), c, qid, quiet, p1);
    DwindlingIsDrainable(Apply(p, Connect), p1, c, qid, quiet);
  }

  lemma RoundSends(p1: Process, c: Conn, qid: string, o: Oracle, quiet: bool, p2: Process)
    requires Drainable(p1, qid) && Faultless(o) && Unnoticed(p1.hub, c) && c in p1.readers
    requires Enabled(p1, Subscribing(c, qid, o)) ==> Waits(Apply(p1, Subscribing(c, qid, o)), c, qid, quiet, p2)
    ensures Enabled(p1, Subscribing(c, qid, o)) && Sent(p1, c, qid, o, quiet, p2)
  {
    FreshSub(p1, c, qid, o);
    WaitingIsSteady(Apply(p1, Subscribing(c, qid, o)), c, qid, quiet, p2);
  }

  /** It can acknowledge it all; and the oldest fifteen are among it. */
  lemma SentCanBeAcknowledged(p1: Process, c: Conn, qid: string, o: Oracle, quiet: bool, p2: Process)
    returns (mids: seq<string>)
    requires Drainable(p1, qid) && Sent(p1, c, qid, o, quiet, p2)
    ensures var hist, rows := p2.hub.chans[c].hist, Backlog(p1, qid);
      && hist != [] && (forall i :: 1 <= i < |hist| ==> hist[i].Deliver?) && mids == Mids(hist[1..])
      && (forall m :: m in mids ==> Sliceable(m)) && Oldest(rows, mids, o)
  {
    mids := ReplayedMids(qid, Backlog(p1, qid), o);
  }

  /** mids begin with the ids of the oldest fifteen, and are just those when the write pump
      lags. */
  ghost predicate Oldest(rows: seq<Tables.Row>, mids: seq<string>, o: Oracle) {
    && Min(|rows|, BATCH) <= |mids| && (forall i :: 0 <= i < Min(|rows|, BATCH) ==> mids[i] == rows[i].mid)
    && (o.takes == [] ==> |mids| == Min(|rows|, BATCH))
  }

  lemma ReplayedMids(qid: string, rows: seq<Tables.Row>, o: Oracle) returns (mids: seq<string>)
    requires forall r :: r in rows ==> Sliceable(r.mid)
    ensures var hist := Replay(Push(NEW_CHAN, SubOk(qid)), qid, rows, o, |rows|).hist;
      && hist != [] && (forall i :: 1 <= i < |hist| ==> hist[i].Deliver?) && mids == Mids(hist[1..])
      && (forall m :: m in mids ==> Sliceable(m)) && Oldest(rows, mids, o)
  {
    var start := Push(NEW_CHAN, SubOk(qid));
    var hist := Replay(start, qid, rows, o, |rows|).hist;
    ReplayBatch(start, qid, rows, o, |rows|);
    ReplayDelivers(start, qid, rows, o, |rows|);
    if o.takes == [] { ReplayBatchIsTight(start, qid, rows, o, |rows|); }
    MidsAreOfRows(hist, qid, rows);
    mids := Mids(hist[1..]);
    forall i | 0 <= i < Min(|rows|, BATCH) ensures mids[i] == rows[i].mid {
      assert hist[1 + i] == DeliverRow(qid, rows[i]);
    }
  }

  lemma MidsAreOfRows(hist: seq<Frame>, qid: string, rows: seq<Tables.Row>)
    requires hist != [] && forall i :: 1 <= i < |hist| ==> DeliversRow(hist[i], qid, rows)
    requires forall r :: r in rows ==> Sliceable(r.mid)
    ensures forall i :: 1 <= i < |hist| ==> hist[i].Deliver?
    ensures forall m :: m in Mids(hist[1..]) ==> Sliceable(m)
  {
    var mids := Mids(hist[1..]);
    forall m | m in mids ensures Sliceable(m) {
      var i :| 0 <= i < |mids| && mids[i] == m;
      assert DeliversRow(hist[1 + i], qid, rows);
    }
  }

  /** A round can be run from every drainable state. */
  lemma RoundRuns(p: Process, qid: string, o: Oracle, quiet: bool) returns (p': Process)
    requires Drainable(p, qid) && Faultless(o)
    ensures Round(p, qid, o, quiet, p')
  {
    var c := |p.hub.chans|;
    FreshConnection(p, qid);
    var p1 := Apply(p, Connect);
    NoWaiting(p1, c, qid, quiet);
    RoundConnects(p, qid, o, quiet, p1);
    FreshSub(p1, c, qid, o);
    var p2 := Apply(p1, Subscribing(c, qid, o));
    NoWaiting(p2, c, qid, quiet);
    RoundSends(p1, c, qid, o, quiet, p2);
    var mids := SentCanBeAcknowledged(p1, c, qid, o, quiet, p2);
    var p3 := AcksRun(p2, c, qid, mids, o, quiet);
    AcksReduce(p2, c, qid, mids, o, quiet, p3);
    HubInvIsIndexed(p3.hub, p3.birth);
    p' := Apply(p3, Disconnect(c));
    NoWaiting(p', c, qid, quiet);
    assert RoundVia(p, qid, o, quiet, p1, p2, p3, p');
  }

  /** The backlogs of a round: at its SUB, and at its end. */
  ghost predicate Acknowledged(rows: seq<Tables.Row>, rows1: seq<Tables.Row>, o: Oracle, quiet: bool,
                               mids: seq<string>, rows': seq<Tables.Row>) {
    && Thinned(rows, rows1) && (quiet ==> rows1 == rows) && Oldest(rows1, mids, o)
    && Reduced(rows1, mids, quiet, rows')
  }

  lemma RoundEnds(p3: Process, c: Conn, qid: string, quiet: bool, p': Process)
    requires ProcessInv(p3) && c < |p3.hub.chans| && Devoted(p3.hub, c, qid) && Enabled(p3, Disconnect(c))
    requires Waits(Apply(p3, Disconnect(c)), c, qid, quiet, p')
    ensures ProcessInv(p') && (qid in p3.hub.vault.db.queues ==> qid in p'.hub.vault.db.queues)
    ensures Thinned(Backlog(p3, qid), Backlog(p', qid)) && (quiet ==> Backlog(p', qid) == Backlog(p3, qid))
  {
    StepKeeps(p3, Disconnect(c));
    WaitingIsSteady(Apply(p3, Disconnect(c)), c, qid, quiet, p');
  }

  lemma ReducedThinned(rows: seq<Tables.Row>, rows2: seq<Tables.Row>, mids: seq<string>, quiet: bool,
                       rows3: seq<Tables.Row>, rows': seq<Tables.Row>)
    requires Thinned(rows, rows2) && (quiet ==> rows2 == rows) && Reduced(rows2, mids, quiet, rows3)
    requires Thinned(rows3, rows') && (quiet ==> rows' == rows3)
    ensures Reduced(rows, mids, quiet, rows')
  {
    ThinnedTwice(rows, rows2, rows3);
    ThinnedTwice(rows, rows3, rows');
    ThinnedIsPart(rows3, rows');
  }

  lemma RoundAcknowledges(p: Process, qid: string, o: Oracle, quiet: bool, p': Process)
    returns (rows1: seq<Tables.Row>, mids: seq<string>)
    requires Drainable(p, qid) && Faultless(o) && Round(p, qid, o, quiet, p')
    ensures Acknowledged(Backlog(p, qid), rows1, o, quiet, mids, Backlog(p', qid))
    ensures ProcessInv(p') && qid in p'.hub.vault.db.queues
  {
    var c := |p.hub.chans|;
    var p1, p2, p3 :| RoundVia(p, qid, o, quiet, p1, p2, p3, p');
    RoundConnects(p, qid, o, quiet, p1);
    RoundSends(p1, c, qid, o, quiet, p2);
    mids := SentCanBeAcknowledged(p1, c, qid, o, quiet, p2);
    AcksReduce(p2, c, qid, mids, o, quiet, p3);
    RoundEnds(p3, c, qid, quiet, p');
    rows1 := Backlog(p1, qid);
    ReducedThinned(rows1, Backlog(p2, qid), mids, quiet, Backlog(p3, qid), Backlog(p', qid));
  }

  lemma AcknowledgedShrinks(rows: seq<Tables.Row>, rows1: seq<Tables.Row>, o: Oracle, quiet: bool,
                            mids: seq<string>, rows': seq<Tables.Row>)
    requires Acknowledged(rows, rows1, o, quiet, mids, rows')
    ensures |rows'| <= |rows| - Min(|rows|, BATCH) && forall r :: r in rows' ==> r in rows
  {
    ThinnedIsPart(rows, rows1);
    ThinnedIsPart(rows1, rows');
    var k := Min(|rows1|, BATCH);
    forall i, r | 0 <= i < k && r in rows' ensures r.mid != rows1[i].mid { assert mids[i] in mids; }
    ThinnedPrefix(rows1, rows', k);
  }

  /** A round removes at least the oldest fifteen messages there are at its SUB. When nobody
      else acknowledges and the write pump takes nothing during the replay, it removes
      exactly those: the bound is tight. */
  lemma RoundDrains(p: Process, qid: string, o: Oracle, quiet: bool, p': Process)
    requires Drainable(p, qid) && Faultless(o) && Round(p, qid, o, quiet, p')
    ensures Drainable(p', qid)
    ensures |Backlog(p', qid)| <= |Backlog(p, qid)| - Min(|Backlog(p, qid)|, BATCH)
    ensures quiet && o.takes == [] ==> Backlog(p', qid) == Backlog(p, qid)[Min(|Backlog(p, qid)|, BATCH)..]
  {
    var rows := Backlog(p, qid);
    var rows1, mids := RoundAcknowledges(p, qid, o, quiet, p');
    AcknowledgedShrinks(rows, rows1, o, quiet, mids, Backlog(p', qid));
    if quiet && o.takes == [] {
      Ledger.ReplayIsAcceptanceOrder(p.hub.vault, p.now, qid);
      PrefixIsAcknowledged(p.hub.vault, rows, mids);
    }
  }

  ghost predicate Rounds(p: Process, qid: string, os: seq<Oracle>, quiet: bool, p': Process)
    decreases |os|
  {
    if os == [] then p' == p
    else exists p1 :: Round(p, qid, os[0], quiet, p1) && Rounds(p1, qid, os[1..], quiet, p')
  }

  /** n undelivered messages are gone after ceil(n / 15) rounds. */
  lemma {:induction false} BacklogDrains(p: Process, qid: string, os: seq<Oracle>, quiet: bool, p': Process)
    requires Drainable(p, qid) && (forall o :: o in os ==> Faultless(o)) && Rounds(p, qid, os, quiet, p')
    ensures Drainable(p', qid)
    ensures |os| >= Batches(|Backlog(p, qid)|) ==> Backlog(p', qid) == []
    decreases |os|
  {
    if os != [] {
      var p1 :| Round(p, qid, os[0], quiet, p1) && Rounds(p1, qid, os[1..], quiet, p');
      RoundDrains(p, qid, os[0], quiet, p1);
      BatchesLeft(|Backlog(p, qid)|, |Backlog(p1, qid)|);
      BacklogDrains(p1, qid, os[1..], quiet, p');
    }
  }

  /** How many batches n messages are. */
  function Batches(n: nat): nat {
    (n + BATCH - 1) / BATCH
  }

  lemma BatchesLeft(n: nat, n': nat)
    requires n' <= n - Min(n, BATCH)
    ensures n > 0 ==> Batches(n') <= Batches(n) - 1
    ensures n == 0 ==> n' == 0
    ensures Batches(n) == 0 ==> n == 0
  {
  }

  /** When the write pump lags in every round and nobody else acknowledges, fewer rounds are
      not enough: k of them leave exactly the messages after the oldest 15 k. */
  lemma BacklogDrainsNoFaster(p: Process, qid: string, os: seq<Oracle>, p': Process)
    requires Drainable(p, qid) && Rounds(p, qid, os, true, p')
    requires forall o :: o in os ==> Faultless(o) && o.takes == []
    ensures Backlog(p', qid) == Backlog(p, qid)[Min(|Backlog(p, qid)|, BATCH * |os|)..]
  {
    LaggingRounds(p, qid, os, p');
    AllButIsSuffix(Backlog(p, qid), |os|);
  }

  lemma {:induction false} LaggingRounds(p: Process, qid: string, os: seq<Oracle>, p': Process)
    requires Drainable(p, qid) && Rounds(p, qid, os, true, p')
    requires forall o :: o in os ==> Faultless(o) && o.takes == []
    ensures Leaves(p', qid, AllBut(Backlog(p, qid), |os|))
    decreases |os|
  {
    if os != [] {
      assert |os[1..]| == |os| - 1;
      var p1 := LaggingRound(p, qid, os, p');
      LaggingRounds(p1, qid, os[1..], p');
    }
  }

  ghost predicate Leaves(p: Process, qid: string, rows: seq<Tables.Row>) {
    Backlog(p, qid) == rows
  }

  lemma LaggingRound(p: Process, qid: string, os: seq<Oracle>, p': Process) returns (p1: Process)
    requires os != [] && Drainable(p, qid) && Faultless(os[0]) && os[0].takes == [] && Rounds(p, qid, os, true, p')
    ensures Drainable(p1, qid) && Rounds(p1, qid, os[1..], true, p')
    ensures AllBut(Backlog(p1, qid), |os| - 1) == AllBut(Backlog(p, qid), |os|)
  {
    var q :| Round(p, qid, os[0], true, q) && Rounds(q, qid, os[1..], true, p');
    p1 := q;
    RoundDrains(p, qid, os[0], true, p1);
  }

  /** All but the first k batches. */
  function AllBut(rows: seq<Tables.Row>, k: nat): seq<Tables.Row> {
    if k == 0 then rows else AllBut(rows[Min(|rows|, BATCH)..], k - 1)
  }

  lemma {:induction false} AllButIsSuffix(rows: seq<Tables.Row>, k: nat)
    ensures AllBut(rows, k) == rows[Min(|rows|, BATCH * k)..]
  {
    if k > 0 {
      var rest := rows[Min(|rows|, BATCH)..];
      AllButIsSuffix(rest, k - 1);
      assert Min(|rows|, BATCH) + Min(|rest|, BATCH * (k - 1)) == Min(|rows|, BATCH * k);
    }
  }

  /** And the rounds can be run, whatever the write pump does in each. */
  lemma {:induction false} BacklogCanBeDrained(p: Process, qid: string, os: seq<Oracle>, quiet: bool)
    returns (p': Process)
    requires Drainable(p, qid) && (forall o :: o in os ==> Faultless(o))
    ensures Rounds(p, qid, os, quiet, p')
    ensures |os| >= Batches(|Backlog(p, qid)|) ==> Backlog(p', qid) == []
    decreases |os|
  {
    if os == [] {
      p' := p;
    } else {
      var p1 := RoundRuns(p, qid, os[0], quiet);
      RoundDrains(p, qid, os[0], quiet, p1);
      p' := BacklogCanBeDrained(p1, qid, os[1..], quiet);
      assert Round(p, qid, os[0], quiet, p1);
      BacklogDrains(p, qid, os, quiet, p');
    }
  }
}
