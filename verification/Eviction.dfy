/** What becomes of the routing table when connections leave. Unregister evicts, but it is
    skipped for a kicked connection, whose roles therefore outlive it; only a restart clears
    those. */
module Eviction {
  import opened Ids
  import opened Frames
  import opened Channel
  import opened Relay
  import opened Steps
  import opened Invariants
  import opened Guarantees
  import opened Mailbox

  // ---- an invariant of the table ----

  /** Every client still has a read pump; an entry without a role is only there while some
      client is; every key is a queue id. */
  ghost predicate Tidy(p: Process) {
    && p.hub.clients <= p.readers
    && (p.hub.clients == {} ==> forall q :: q in p.hub.queues ==> p.hub.queues[q] != NOBODY)
    && (forall q :: q in p.hub.queues ==> ValidQueueID(q))
  }

  /** What a handled command does to clients and keys. */
  ghost predicate Orderly(h: Hub, c: Conn, h': Hub) {
    && h'.clients <= h.clients
    && (h'.queues == h.queues || c in h'.clients)
    && (h'.clients == {} ==> h.clients == {} && h'.queues == h.queues)
    && (forall q :: q in h'.queues ==> q in h.queues || ValidQueueID(q))
  }

  lemma SubIsOrderly(h: Hub, c: Conn, qid: string, now: int, o: Oracle)
    requires Indexed(h) && c < |h.chans| && c in h.clients
    ensures Known(h, Cached(h, qid).sub)
    ensures HandleSub(h, c, qid, now, o).Alive? ==> Orderly(h, c, HandleSub(h, c, qid, now, o).hub)
  {
  }

  lemma SendIsOrderly(h: Hub, c: Conn, env: Envelope, now: int, o: Oracle)
    requires Indexed(h) && c < |h.chans| && c in h.clients
    ensures Known(h, Cached(h, env.qid).sub)
    ensures HandleSend(h, c, env, now, o).Alive? ==> Orderly(h, c, HandleSend(h, c, env, now, o).hub)
  {
  }

  lemma ReadIsOrderly(h: Hub, birth: Conn, c: Conn, m: Message, now: int, o: Oracle)
    requires HubInv(h, birth) && Indexed(h) && birth <= c < |h.chans| && WellDrawn(o)
    ensures Read(h, c, m, now, o).Alive? ==> Orderly(h, c, Read(h, c, m, now, o).hub)
  {
    ClientCheckIsStricter(o.newId);
    if c !in h.clients { assert !Open(h.chans[c]); }
    if Parse(m).Some? && Parse(m).value.kind != PING {
      var env := Parse(m).value;
      CachedIsReferenced(h, birth, env.qid);
      match env.kind
      case SUB =>
        SubCrashes(h, birth, c, env.qid, now, o);
        if c in h.clients { SubIsOrderly(h, c, env.qid, now, o); }
      case SEND =>
        SendCrashes(h, birth, c, env, now, o);
        if c in h.clients { SendIsOrderly(h, c, env, now, o); }
      case _ =>
    }
  }

  lemma StepKeepsTidy(p: Process, s: Step)
    requires ProcessInv(p) && Tidy(p) && Enabled(p, s)
    ensures Tidy(Apply(p, s))
  {
    match s
    case Incoming(c, m, o) => ReadIsOrderly(p.hub, p.birth, c, m, p.now, o);
    case _ =>
  }

  lemma {:induction false} RunKeepsTidy(p: Process, ss: seq<Step>, p': Process)
    requires ProcessInv(p) && Tidy(p) && Runs(p, ss, p')
    ensures Tidy(p')
    decreases ss
  {
    if ss != [] {
      StepKeeps(p, ss[0]);
      StepKeepsTidy(p, ss[0]);
      RunKeepsTidy(Apply(p, ss[0]), ss[1..], p');
    }
  }

  /** The table's keys are 32 hex digits, so the slices releaseQueue logs are in bounds: a
      disconnect never panics. */
  lemma KeysCanBeSliced(p: Process)
    requires Reachable(p)
    ensures Tidy(p) && forall q :: q in p.hub.queues ==> Sliceable(q)
  {
    var ss :| Runs(START, ss, p);
    StartIsSound();
    RunKeepsTidy(START, ss, p);
  }

  // ---- everybody leaves ----

  /** Every connection of p leaves, in some order. */
  ghost predicate Empties(p: Process, ss: seq<Step>, p': Process) {
    Runs(p, ss, p') && p'.readers == {} && forall i :: 0 <= i < |ss| ==> ss[i].Disconnect?
  }

  predicate Within(who: Option<Conn>, cs: set<Conn>) {
    who.Some? && who.value in cs
  }

  /** Some entry names a connection of cs. */
  ghost predicate Names(entries: map<string, Entry>, cs: set<Conn>) {
    exists q :: q in entries && (Within(entries[q].owner, cs) || Within(entries[q].sub, cs))
  }

  function Only(e: Entry, cs: set<Conn>): Entry {
    Entry(if Within(e.owner, cs) then e.owner else None, if Within(e.sub, cs) then e.sub else None)
  }

  /** The roles connections of cs hold. */
  function Relics(entries: map<string, Entry>, cs: set<Conn>): map<string, Entry> {
    map q | q in entries && Only(entries[q], cs) != NOBODY :: Only(entries[q], cs)
  }

  lemma LeavingKeepsRelics(h: Hub, c: Conn)
    requires c < |h.chans| && h.clients !! h.kicked
    ensures Relics(Unregister(h, c).queues, h.kicked) == Relics(h.queues, h.kicked)
  {
    if c in h.clients {
      forall q | q in h.queues ensures Only(Drop(h.queues[q], c), h.kicked) == Only(h.queues[q], h.kicked) {}
    }
  }

  lemma {:induction false} TableAfterLeaving(p: Process, ss: seq<Step>, p': Process)
    requires ProcessInv(p) && Tidy(p) && Empties(p, ss, p')
    ensures ProcessInv(p') && p'.hub.clients == {} && p'.hub.kicked == p.hub.kicked && p'.hub.vault == p.hub.vault
    ensures p'.hub.queues == Relics(p.hub.queues, p.hub.kicked)
    decreases ss
  {
    if ss == [] {
      var h := p.hub;
      forall q | q in h.queues ensures Only(h.queues[q], h.kicked) == h.queues[q] {
        assert Referenced(h, h.queues[q]);
      }
    } else {
      StepKeeps(p, ss[0]);
      StepKeepsTidy(p, ss[0]);
      LeavingKeepsRelics(p.hub, ss[0].c);
      assert ss[0].Disconnect?;
      TableAfterLeaving(Apply(p, ss[0]), ss[1..], p');
    }
  }

  /** After everybody has left, in any order, the table holds exactly the roles of kicked
      connections. It is the empty table of a restart if and only if, before, no entry
      named a kicked connection. */
  lemma RestartIsEverybodyLeavingUnlessKicked(p: Process, ss: seq<Step>, p': Process)
    requires Reachable(p) && Empties(p, ss, p')
    ensures p'.hub.clients == Rebooted(p', p'.hub).hub.clients
    ensures p'.hub.queues == Relics(p.hub.queues, p.hub.kicked)
    ensures p'.hub.queues == Rebooted(p', p'.hub).hub.queues <==> !Names(p.hub.queues, p.hub.kicked)
  {
    ReachableIsSound(p);
    KeysCanBeSliced(p);
    TableAfterLeaving(p, ss, p');
    var queues, kicked := p.hub.queues, p.hub.kicked;
    if q :| q in queues && (Within(queues[q].owner, kicked) || Within(queues[q].sub, kicked)) {
      assert q in p'.hub.queues;
    } else {
      assert p'.hub.queues == map[];
    }
  }

  /** Everybody can leave. */
  lemma {:induction false} EverybodyCanLeave(p: Process) returns (ss: seq<Step>, p': Process)
    requires ProcessInv(p)
    ensures Empties(p, ss, p')
    decreases p.readers
  {
    if p.readers == {} {
      ss, p' := [], p;
    } else {
      var c :| c in p.readers;
      HubInvIsIndexed(p.hub, p.birth);
      StepKeeps(p, Disconnect(c));
      var rest;
      rest, p' := EverybodyCanLeave(Apply(p, Disconnect(c)));
      ss := [Disconnect(c)] + rest;
      assert ss[1..] == rest;
    }
  }

  // ---- the same, seen from outside ----

  lemma {:induction false} OfficeFollows(p: Process, ss: seq<Step>, fs: seq<bool>, p': Process, b: Branch)
    requires Runs(p, ss, p') && |ss| == |fs| && Does(SeenProcess(p), ss, fs, b)
    requires forall i :: 0 <= i < |ss| ==> ss[i].Disconnect?
    ensures b == SeenProcess(p')
    decreases ss
  {
    if ss != [] {
      assert ss[0].Disconnect?;
      StepMatches(p, ss[0]);
      OfficeFollows(Apply(p, ss[0]), ss[1..], fs[1..], p', b);
    }
  }

  /** The office after everybody has left has the clients and boxes of a reopened one if and
      only if, before, no box named a kicked connection. */
  lemma OfficeAfterEverybodyLeft(p: Process, ss: seq<Step>, p': Process, fs: seq<bool>, b: Branch)
    requires Reachable(p) && Empties(p, ss, p') && |ss| == |fs| && Does(SeenProcess(p), ss, fs, b)
    ensures b.office.clients == Reopened(b, Left(b.office)).office.clients
    ensures b.office.boxes == Reopened(b, Left(b.office)).office.boxes <==> !Names(Seen(p.hub).boxes, p.hub.kicked)
  {
    OfficeFollows(p, ss, fs, p', b);
    BoxesAfterLeaving(p, ss, p');
    EmptyUnlessNamed(Seen(p.hub).boxes, b.office.boxes, p.hub.kicked);
    ReopenedBoxes(b);
  }

  lemma BoxesAfterLeaving(p: Process, ss: seq<Step>, p': Process)
    requires Reachable(p) && Empties(p, ss, p')
    ensures Seen(p'.hub).clients == {} && Seen(p'.hub).boxes.Keys == Seen(p.hub).boxes.Keys
    ensures forall q :: q in Seen(p.hub).boxes ==> Seen(p'.hub).boxes[q] == Only(Seen(p.hub).boxes[q], p.hub.kicked)
  {
    ReachableIsSound(p);
    KeysCanBeSliced(p);
    TableAfterLeaving(p, ss, p');
    OnlyTheCache(p.hub, p'.hub);
  }

  lemma OnlyTheCache(h: Hub, h': Hub)
    requires h'.vault == h.vault && h'.queues == Relics(h.queues, h.kicked)
    ensures Seen(h').boxes.Keys == Seen(h).boxes.Keys
    ensures forall q :: q in Seen(h).boxes ==> Seen(h').boxes[q] == Only(Seen(h).boxes[q], h.kicked)
  {
  }

  lemma ReopenedBoxes(b: Branch)
    requires b.office.boxes.Keys == b.office.vault.db.queues.Keys
    ensures Reopened(b, Left(b.office)).office.boxes == map q | q in b.office.boxes :: NOBODY
  {
  }

  lemma EmptyUnlessNamed(before: map<string, Entry>, after: map<string, Entry>, cs: set<Conn>)
    requires after.Keys == before.Keys && forall q :: q in before ==> after[q] == Only(before[q], cs)
    ensures after == (map q | q in after :: NOBODY) <==> !Names(before, cs)
  {
    if q :| q in before && (Within(before[q].owner, cs) || Within(before[q].sub, cs)) {
      assert after[q] != NOBODY;
    }
  }
}
