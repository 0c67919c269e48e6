/** server/store.go: the two tables as fields, each method one or more SQL statements.
    fails stands for any error SQLite may report, with no effect. */
module StoreClass {
  import opened Frames
  import opened Tables
  import Ledger

  class Store {
    var queues: map<string, QueueRow>
    var rows: seq<Row>
    ghost var book: Ledger.Vault

    ghost predicate Valid()
      reads this
    {
      book.db == Db(queues, rows)
    }

    constructor ()
      ensures Valid() && book == Ledger.EMPTY
    {
      queues, rows := map[], [];
      book := Ledger.EMPTY;
    }

    method CreateQueue(qid: string, now: int, fails: bool) returns (ok: bool)
      requires Valid()
      modifies this
      ensures Valid() && ok == !fails
      ensures book == if ok then Ledger.Create(old(book), qid, now) else old(book)
    {
      if fails { return false; }
      if qid !in queues { queues := queues[qid := QueueRow(now, 0)]; }
      book := Ledger.Create(book, qid, now);
      return true;
    }

    method QueueExists(qid: string, fails: bool) returns (ok: bool, exists_: bool)
      requires Valid()
      ensures ok == !fails && (ok ==> (exists_ <==> qid in book.db.queues))
    {
      return !fails, qid in queues;
    }

    /** INSERT: refused by the primary key, the foreign key, or a fault. */
    method SaveMessage(mid: string, qid: string, payload: Payload, ts: int, fails: bool) returns (ok: bool)
      requires Valid()
      modifies this
      ensures Valid() && (ok <==> !fails && Ledger.MayAccept(old(book), mid, qid))
      ensures book == if ok then Ledger.Accept(old(book), mid, qid, payload, ts) else old(book)
    {
      if fails || qid !in queues || exists r :: r in rows && r.mid == mid { return false; }
      rows := rows + [Row(mid, qid, payload, ts, false, MaxRowid(rows) + 1)];
      book := Ledger.Accept(book, mid, qid, payload, ts);
      return true;
    }

    /** The replay query, and the loop that scans its cursor. */
    method Undelivered(qid: string, fails: bool) returns (ok: bool, out: seq<Row>)
      requires Valid()
      ensures ok == !fails && (ok ==> out == Tables.Undelivered(book.db, qid)) && (!ok ==> out == [])
    {
      if fails { return false, []; }
      var cursor := Sort(Filter(rows, (r: Row) => r.qid == qid && !r.delivered));
      out := [];
      var i := 0;
      while i < |cursor|
        invariant 0 <= i <= |cursor| && out == cursor[..i]
      {
        out := out + [cursor[i]];
        i := i + 1;
      }
      ok := true;
    }

    method MarkDelivered(mid: string, fails: bool) returns (ok: bool)
      requires Valid()
      modifies this
      ensures Valid() && ok == !fails
      ensures book == if ok then old(book).(db := Tables.MarkDelivered(old(book).db, mid)) else old(book)
    {
      if fails { return false; }
      var table := rows;
      rows := seq(|table|, i requires 0 <= i < |table| => Marked(table[i], mid));
      assert rows == Tables.MarkDelivered(book.db, mid).rows;
      book := book.(db := Tables.MarkDelivered(book.db, mid));
      return true;
    }

    method TouchQueue(qid: string, now: int, fails: bool) returns (ok: bool)
      requires Valid()
      modifies this
      ensures Valid() && ok == !fails
      ensures book == if ok then Ledger.Touch(old(book), qid, now) else old(book)
      ensures rows == old(rows) && queues.Keys == old(queues).Keys
      ensures forall q :: q in queues ==>
        queues[q] == if ok && q == qid then QueueRow(old(queues)[q].createdAt, now) else old(queues)[q]
    {
      if fails { return false; }
      if qid in queues { queues := queues[qid := queues[qid].(lastActive := now)]; }
      book := Ledger.Touch(book, qid, now);
      return true;
    }

    method DeleteMessage(mid: string, fails: bool) returns (ok: bool)
      requires Valid()
      modifies this
      ensures Valid() && ok == !fails
      ensures book == if ok then Ledger.Acknowledge(old(book), mid) else old(book)
    {
      if fails { return false; }
      rows := Filter(rows, (r: Row) => r.mid != mid);
      book := Ledger.Acknowledge(book, mid);
      return true;
    }

    method SweepMessages(cutoff: int) returns (n: int)
      requires Valid()
      modifies this
      ensures Valid() && book == Ledger.ExpireMessages(old(book), cutoff)
      ensures n == |old(rows)| - |rows|
    {
      var before := |rows|;
      var expired := set q | q in queues && Expired(queues[q], cutoff);
      ghost var db := Db(queues, rows);
      var kept := (r: Row) => r.qid !in expired;
      SameSelection(rows, kept, (r: Row) => !InExpiredQueue(db, r, cutoff));
      rows := Filter(rows, kept);
      book := Ledger.ExpireMessages(book, cutoff);
      n := before - |rows|;
    }

    method SweepQueues(cutoff: int) returns (ok: bool, n: int)
      requires Valid()
      modifies this
      ensures Valid() && (ok <==> MaySweepQueues(old(book).db, cutoff))
      ensures book == if ok then Ledger.ExpireQueues(old(book), cutoff) else old(book)
      ensures n == |old(queues)| - |queues|
    {
      var before := |queues|;
      if exists r :: r in rows && r.qid in queues && Expired(queues[r.qid], cutoff) { return false, 0; }
      queues := map q | q in queues && !Expired(queues[q], cutoff) :: queues[q];
      book := Ledger.ExpireQueues(book, cutoff);
      return true, before - |queues|;
    }

    method SweepResidue(cutoff: int) returns (n: int)
      requires Valid()
      modifies this
      ensures Valid() && book == Ledger.ExpireResidue(old(book), cutoff)
      ensures n == |old(rows)| - |rows|
    {
      var before := |rows|;
      rows := Filter(rows, (r: Row) => !(r.delivered && r.ts < cutoff));
      book := Ledger.ExpireResidue(book, cutoff);
      n := before - |rows|;
    }

    /** Sweep without a command in between; fault is the statement that fails, if any of the
        three does, and what was done before it stays done. The second is never refused by
        the foreign key. Steps interrupts it. */
    method Sweep(now: int, queueTTL: int, ackGrace: int, fault: nat)
      returns (ok: bool, removedQueues: int, orphaned: int, residue: int)
      requires Valid()
      modifies this
      ensures Valid() && (ok <==> !(1 <= fault <= 3))
      ensures book == SweptUntil(old(book), now - queueTTL, now - ackGrace, fault)
      ensures ok ==> orphaned == |old(rows)| - |Tables.SweepMessages(old(book).db, now - queueTTL).rows|
      ensures ok ==> orphaned + residue == |old(rows)| - |rows| && removedQueues == |old(queues)| - |queues|
      ensures !ok ==> removedQueues == 0 && orphaned == 0 && residue == 0
    {
      if fault == 1 { return false, 0, 0, 0; }
      ghost var v1 := Ledger.ExpireMessages(book, now - queueTTL);
      SweepMessagesClearsTheWay(book.db, now - queueTTL);
      orphaned := SweepMessages(now - queueTTL);
      assert book == v1 && rows == v1.db.rows && queues == old(queues);
      if fault == 2 { return false, 0, 0, 0; }
      ok, removedQueues := SweepQueues(now - queueTTL);
      assert ok && book == Ledger.ExpireQueues(v1, now - queueTTL) && rows == v1.db.rows;
      if fault == 3 { return false, 0, 0, 0; }
      residue := SweepResidue(now - ackGrace);
    }
  }

  /** The tables when the sweep reaches statement fault, or its end. */
  function SweptUntil(v: Ledger.Vault, cutoff: int, graceCutoff: int, fault: nat): Ledger.Vault {
    if fault == 1 then v
    else
      var v1 := Ledger.ExpireMessages(v, cutoff);
      if fault == 2 then v1
      else
        var v2 := Ledger.ExpireQueues(v1, cutoff);
        if fault == 3 then v2 else Ledger.ExpireResidue(v2, graceCutoff)
  }

  /** Wherever the sweep stops, sound tables stay sound and no message is left without its
      queue; the last statement is idle. */
  lemma SweepStaysSound(v: Ledger.Vault, cutoff: int, graceCutoff: int, fault: nat)
    requires Ledger.Sound(v)
    ensures Ledger.Sound(SweptUntil(v, cutoff, graceCutoff, fault))
    ensures Intact(SweptUntil(v, cutoff, graceCutoff, fault).db)
    ensures fault > 3 ==> SweptUntil(v, cutoff, graceCutoff, fault) == SweptUntil(v, cutoff, graceCutoff, 3)
  {
    SweepMessagesClearsTheWay(v.db, cutoff);
    Ledger.ExpireMessagesKeepsSound(v, cutoff);
    Ledger.ExpireQueuesKeepsSound(Ledger.ExpireMessages(v, cutoff), cutoff);
    Ledger.ResidueIsEmpty(Ledger.ExpireQueues(Ledger.ExpireMessages(v, cutoff), cutoff), graceCutoff);
    Ledger.SoundIsIntact(SweptUntil(v, cutoff, graceCutoff, fault));
  }
}
