/** The durable tables together with a ledger of everything they ever accepted. The ledger
    is bookkeeping of the model: no operation reads it. Acceptances are numbered from 0; a
    message id may be accepted again once its row is gone, so `number` keeps the latest. */
module Ledger {
  import opened Frames
  import opened Tables

  datatype Acceptance = Acceptance(mid: string, qid: string, payload: Payload, ts: int)

  datatype Vault = Vault(db: Db, log: seq<Acceptance>, number: map<string, nat>,
                         acked: set<nat>, expired: set<nat>)

  const EMPTY := Vault(Db(map[], []), [], map[], {}, {})

  /** The acceptance numbers of the stored rows. */
  function Stored(v: Vault): set<nat> {
    set r | r in v.db.rows && r.mid in v.number :: v.number[r.mid]
  }

  predicate MayAccept(v: Vault, mid: string, qid: string) {
    MaySave(v.db, mid, qid)
  }

  function Create(v: Vault, qid: string, now: int): Vault {
    v.(db := CreateQueue(v.db, qid, now))
  }

  function Touch(v: Vault, qid: string, now: int): Vault {
    v.(db := TouchQueue(v.db, qid, now))
  }

  function Accept(v: Vault, mid: string, qid: string, payload: Payload, ts: int): Vault {
    v.(db := SaveMessage(v.db, mid, qid, payload, ts),
       log := v.log + [Acceptance(mid, qid, payload, ts)],
       number := v.number[mid := |v.log|])
  }

  /** A processed ACK: the row with that id, if any, leaves by acknowledgement. */
  function Acknowledge(v: Vault, mid: string): Vault {
    var v' := v.(db := DeleteMessage(v.db, mid));
    v'.(acked := v.acked + (Stored(v) - Stored(v')))
  }

  /** Sweep, statement by statement. The third one books nothing: see ResidueIsEmpty. */
  function ExpireMessages(v: Vault, cutoff: int): Vault {
    var v' := v.(db := SweepMessages(v.db, cutoff));
    v'.(expired := v.expired + (Stored(v) - Stored(v')))
  }

  function ExpireQueues(v: Vault, cutoff: int): Vault {
    v.(db := SweepQueues(v.db, cutoff))
  }

  function ExpireResidue(v: Vault, cutoff: int): Vault {
    v.(db := SweepResidue(v.db, cutoff))
  }

  // ---- invariants ----

  /** Row r is what acceptance number[r.mid] stored. */
  ghost predicate Booked(v: Vault, r: Row) {
    && r.mid in v.number && v.number[r.mid] < |v.log|
    && v.log[v.number[r.mid]] == Acceptance(r.mid, r.qid, r.payload, r.ts)
    && !r.delivered
    && r.qid in v.db.queues
  }

  /** Rows lie in the table in the order of their acceptance. */
  ghost predicate Precedes(number: map<string, nat>, a: Row, b: Row) {
    a.rowid < b.rowid && a.mid in number && b.mid in number && number[a.mid] < number[b.mid]
  }

  ghost predicate InOrder(v: Vault) {
    Pairwise((a: Row, b: Row) => Precedes(v.number, a, b), v.db.rows)
  }

  /** Every acceptance is in exactly one place. */
  ghost predicate Conserved(v: Vault) {
    && (forall n: nat :: n < |v.log| <==> n in Stored(v) || n in v.acked || n in v.expired)
    && Stored(v) !! v.acked !! v.expired
  }

  ghost predicate LogSound(v: Vault) {
    forall m :: m in v.number ==> v.number[m] < |v.log| && v.log[v.number[m]].mid == m
  }

  ghost predicate Sound(v: Vault) {
    LogSound(v) && (forall r :: r in v.db.rows ==> Booked(v, r)) && InOrder(v) && Conserved(v)
  }

  /** The clock has only moved forward while the log was written. */
  ghost predicate Timely(v: Vault, now: int) {
    && (forall i, j :: 0 <= i < j < |v.log| ==> v.log[i].ts <= v.log[j].ts)
    && (forall i :: 0 <= i < |v.log| ==> v.log[i].ts <= now)
  }

  lemma SoundIsIntact(v: Vault)
    requires Sound(v)
    ensures Intact(v.db)
  {
  }

  lemma AcceptKeepsSound(v: Vault, mid: string, qid: string, payload: Payload, ts: int)
    requires Sound(v) && MayAccept(v, mid, qid)
    ensures Sound(Accept(v, mid, qid, payload, ts))
    ensures Stored(Accept(v, mid, qid, payload, ts)) == Stored(v) + {|v.log|}
  {
    var v' := Accept(v, mid, qid, payload, ts);
    AcceptKeepsRows(v, mid, qid, payload, ts);
    AcceptStores(v, mid, qid, payload, ts);
  }

  /** The rows already there keep their numbers, and the new one comes last. */
  lemma AcceptKeepsRows(v: Vault, mid: string, qid: string, payload: Payload, ts: int)
    requires Sound(v) && MayAccept(v, mid, qid)
    ensures var v' := Accept(v, mid, qid, payload, ts);
      InOrder(v') && forall r :: r in v'.db.rows ==> Booked(v', r)
  {
    var v' := Accept(v, mid, qid, payload, ts);
    var row := v'.db.rows[|v.db.rows|];
    forall r | r in v'.db.rows ensures Booked(v', r) && (r != row ==> v'.number[r.mid] == v.number[r.mid]) {
      assert r in v.db.rows || r == row;
      if r in v.db.rows { assert Booked(v, r) && r.mid != mid; }
    }
    var precedes := (a: Row, b: Row) => Precedes(v.number, a, b);
    forall i, j | 0 <= i < j < |v'.db.rows| ensures Precedes(v'.number, v'.db.rows[i], v'.db.rows[j]) {
      var a, b := v'.db.rows[i], v'.db.rows[j];
      assert a in v.db.rows && Booked(v, a);
      if j < |v.db.rows| { assert precedes(v.db.rows[i], v.db.rows[j]) && Booked(v, b); }
    }
  }

  lemma AcceptStores(v: Vault, mid: string, qid: string, payload: Payload, ts: int)
    requires MayAccept(v, mid, qid)
    ensures Stored(Accept(v, mid, qid, payload, ts)) == Stored(v) + {|v.log|}
  {
    var v' := Accept(v, mid, qid, payload, ts);
    var row := v'.db.rows[|v.db.rows|];
    assert row in v'.db.rows;
    forall n ensures n in Stored(v') <==> n in Stored(v) || n == |v.log| {
      if n in Stored(v) {
        var r :| r in v.db.rows && r.mid in v.number && v.number[r.mid] == n;
        assert r in v'.db.rows && v'.number[r.mid] == n;
      }
      if n in Stored(v') && n != |v.log| {
        var r :| r in v'.db.rows && r.mid in v'.number && v'.number[r.mid] == n;
        assert r in v.db.rows;
      }
    }
  }

  /** Deleting rows, and booking the numbers that leave as acked or expired. */
  lemma DeletionKeepsOrderAndBooks(v: Vault, keep: Row -> bool)
    requires Sound(v)
    ensures var v' := v.(db := v.db.(rows := Filter(v.db.rows, keep)));
            InOrder(v') && (forall r :: r in v'.db.rows ==> Booked(v', r)) && Stored(v') <= Stored(v)
  {
    FilterKeepsOrder(v.db.rows, keep, (a: Row, b: Row) => Precedes(v.number, a, b));
  }

  lemma AcknowledgeKeepsSound(v: Vault, mid: string)
    requires Sound(v)
    ensures Sound(Acknowledge(v, mid))
  {
    DeletionKeepsOrderAndBooks(v, (r: Row) => r.mid != mid);
  }

  /** A processed ACK takes exactly the number of the row with that id, when there is one. */
  lemma AcknowledgeTakesOne(v: Vault, mid: string)
    requires Sound(v)
    ensures mid in v.number && v.number[mid] in Stored(v)
      ==> Acknowledge(v, mid).acked == v.acked + {v.number[mid]}
    ensures (mid !in v.number || v.number[mid] !in Stored(v)) ==> Acknowledge(v, mid) == v
  {
    var v' := v.(db := DeleteMessage(v.db, mid));
    forall n | n in Stored(v) ensures n in Stored(v') <==> mid !in v.number || n != v.number[mid] {
      var r :| r in v.db.rows && r.mid in v.number && v.number[r.mid] == n;
      assert Booked(v, r);
      if r.mid != mid { assert r in v'.db.rows; }
    }
    if mid !in v.number || v.number[mid] !in Stored(v) {
      forall r | r in v.db.rows ensures r.mid != mid { assert Booked(v, r); }
      FilterAll(v.db.rows, (r: Row) => r.mid != mid);
    }
  }

  lemma ExpireMessagesKeepsSound(v: Vault, cutoff: int)
    requires Sound(v)
    ensures Sound(ExpireMessages(v, cutoff))
  {
    DeletionKeepsOrderAndBooks(v, (r: Row) => !InExpiredQueue(v.db, r, cutoff));
  }

  lemma ExpireQueuesKeepsSound(v: Vault, cutoff: int)
    requires Sound(v) && MaySweepQueues(v.db, cutoff)
    ensures Sound(ExpireQueues(v, cutoff))
  {
    assert Stored(ExpireQueues(v, cutoff)) == Stored(v);
  }

  /** No row the hub stores is ever marked delivered, so the third statement of Sweep
      removes nothing. */
  lemma ResidueIsEmpty(v: Vault, cutoff: int)
    requires Sound(v)
    ensures ExpireResidue(v, cutoff) == v
  {
    FilterAll(v.db.rows, (r: Row) => !(r.delivered && r.ts < cutoff));
  }

  lemma QueueStatementsKeepSound(v: Vault, qid: string, now: int)
    requires Sound(v)
    ensures Sound(Create(v, qid, now)) && Sound(Touch(v, qid, now))
  {
    assert Stored(Create(v, qid, now)) == Stored(v) == Stored(Touch(v, qid, now));
  }

  // ---- replay order ----

  /** The acceptance numbers of a queue that neither an ACK nor expiry has removed. */
  function Outstanding(v: Vault, qid: string): set<nat> {
    set n: nat | n < |v.log| && v.log[n].qid == qid && n !in v.acked && n !in v.expired
  }

  ghost predicate Ascending(v: Vault, rows: seq<Row>) {
    forall i, j :: 0 <= i < j < |rows| ==> Earlier(v, rows[i], rows[j])
  }

  predicate Earlier(v: Vault, a: Row, b: Row) {
    a.mid in v.number && b.mid in v.number && v.number[a.mid] < v.number[b.mid]
  }

  /** With a clock that never goes back, the replay of a queue is exactly its outstanding
      acceptances, oldest first: each row carries what was accepted, numbers increase, and
      no outstanding acceptance is missing. */
  lemma ReplayIsAcceptanceOrder(v: Vault, now: int, qid: string)
    requires Sound(v) && Timely(v, now)
    ensures var rows := Undelivered(v.db, qid);
      && (forall r :: r in rows ==> Booked(v, r) && r.qid == qid && r in v.db.rows)
      && Ascending(v, rows)
      && (set r | r in rows :: v.number[r.mid]) == Outstanding(v, qid)
  {
    var keep := (r: Row) => r.qid == qid && !r.delivered;
    ReplayIsSelection(v, now, qid);
    SelectionAscends(v, keep);
    SelectionIsOutstanding(v, qid, Filter(v.db.rows, keep));
  }

  lemma SelectionAscends(v: Vault, keep: Row -> bool)
    requires InOrder(v)
    ensures Ascending(v, Filter(v.db.rows, keep))
  {
    var precedes := (a: Row, b: Row) => Precedes(v.number, a, b);
    FilterKeepsOrder(v.db.rows, keep, precedes);
    var rows := Filter(v.db.rows, keep);
    forall i, j | 0 <= i < j < |rows| ensures Earlier(v, rows[i], rows[j]) {
      assert precedes(rows[i], rows[j]);
    }
  }

  lemma SelectionIsOutstanding(v: Vault, qid: string, rows: seq<Row>)
    requires Sound(v) && forall r :: r in rows <==> r in v.db.rows && r.qid == qid && !r.delivered
    ensures forall r :: r in rows ==> Booked(v, r)
    ensures (set r | r in rows :: v.number[r.mid]) == Outstanding(v, qid)
  {
    assert forall r :: r in v.db.rows ==> Booked(v, r);
    forall n ensures n in Outstanding(v, qid) <==> n in (set r | r in rows :: v.number[r.mid]) {
      OutstandingIsStored(v, qid, n);
    }
  }

  /** The rows of a queue already lie in replay order. */
  lemma ReplayIsSelection(v: Vault, now: int, qid: string)
    requires Sound(v) && Timely(v, now)
    ensures var rows := Filter(v.db.rows, (r: Row) => r.qid == qid && !r.delivered);
      Undelivered(v.db, qid) == rows && Pairwise(Before, rows)
  {
    var keep := (r: Row) => r.qid == qid && !r.delivered;
    forall i, j | 0 <= i < j < |v.db.rows| ensures Before(v.db.rows[i], v.db.rows[j]) {
      assert Booked(v, v.db.rows[i]) && Booked(v, v.db.rows[j]);
    }
    FilterKeepsOrder(v.db.rows, keep, Before);
    SortOfSorted(Filter(v.db.rows, keep));
  }

  lemma OutstandingIsStored(v: Vault, qid: string, n: nat)
    requires Sound(v)
    ensures n in Outstanding(v, qid)
       <==> exists r :: r in v.db.rows && r.qid == qid && Booked(v, r) && v.number[r.mid] == n
  {
    if n in Outstanding(v, qid) {
      assert n in Stored(v);
      var r :| r in v.db.rows && r.mid in v.number && v.number[r.mid] == n;
      assert Booked(v, r);
    }
    if r :| r in v.db.rows && r.qid == qid && Booked(v, r) && v.number[r.mid] == n {
      assert n in Stored(v);
    }
  }
}
