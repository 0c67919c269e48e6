/** The two SQLite tables of server/store.go and the statements run on them, as functions
    on values. Kept of SQLite: the primary keys, the foreign key, INSERT OR IGNORE,
    rowid = 1 + largest in use, filtered delete, ordered select. */
module Tables {
  import opened Frames

  datatype QueueRow = QueueRow(createdAt: int, lastActive: int)

  datatype Row = Row(mid: string, qid: string, payload: Payload, ts: int, delivered: bool, rowid: int)

  /** rows are listed in rowid order, the order in which a table scan meets them. */
  datatype Db = Db(queues: map<string, QueueRow>, rows: seq<Row>)

  // ---- selection and order ----

  function Filter(rows: seq<Row>, keep: Row -> bool): (kept: seq<Row>)
    ensures forall r :: r in kept <==> r in rows && keep(r)
  {
    if rows == [] then []
    else
      var last := rows[|rows| - 1];
      assert forall r :: r in rows <==> r in rows[..|rows| - 1] || r == last;
      Filter(rows[..|rows| - 1], keep) + (if keep(last) then [last] else [])
  }

  ghost predicate Pairwise(related: (Row, Row) -> bool, rows: seq<Row>) {
    forall i, j :: 0 <= i < j < |rows| ==> related(rows[i], rows[j])
  }

  /** A selection keeps whatever every two rows satisfy in table order. */
  lemma {:induction false} FilterKeepsOrder(rows: seq<Row>, keep: Row -> bool, related: (Row, Row) -> bool)
    requires Pairwise(related, rows)
    ensures Pairwise(related, Filter(rows, keep))
  {
    if rows != [] {
      FilterKeepsOrder(rows[..|rows| - 1], keep, related);
      var head := Filter(rows[..|rows| - 1], keep);
      forall i | 0 <= i < |head| ensures related(head[i], rows[|rows| - 1]) {
        assert head[i] in rows[..|rows| - 1];
      }
    }
  }

  lemma {:induction false} FilterAll(rows: seq<Row>, keep: Row -> bool)
    requires forall r :: r in rows ==> keep(r)
    ensures Filter(rows, keep) == rows
  {
    if rows != [] {
      FilterAll(rows[..|rows| - 1], keep);
      assert rows == rows[..|rows| - 1] + [rows[|rows| - 1]];
    }
  }

  lemma {:induction false} SameSelection(rows: seq<Row>, f: Row -> bool, g: Row -> bool)
    requires forall r :: r in rows ==> f(r) == g(r)
    ensures Filter(rows, f) == Filter(rows, g)
  {
    if rows != [] { SameSelection(rows[..|rows| - 1], f, g); }
  }

  /** ORDER BY ts, rowid. */
  predicate Before(a: Row, b: Row) {
    a.ts < b.ts || (a.ts == b.ts && a.rowid < b.rowid)
  }

  function Insert(sorted: seq<Row>, r: Row): (s: seq<Row>)
    ensures multiset(s) == multiset(sorted) + multiset{r}
  {
    if sorted == [] then [r]
    else
      var init, last := sorted[..|sorted| - 1], sorted[|sorted| - 1];
      assert sorted == init + [last];
      if Before(r, last) then Insert(init, r) + [last] else sorted + [r]
  }

  function Sort(rows: seq<Row>): (s: seq<Row>)
    ensures multiset(s) == multiset(rows)
  {
    if rows == [] then []
    else
      assert rows == rows[..|rows| - 1] + [rows[|rows| - 1]];
      Insert(Sort(rows[..|rows| - 1]), rows[|rows| - 1])
  }

  ghost predicate DistinctRowids(rows: seq<Row>) {
    Pairwise((a: Row, b: Row) => a.rowid != b.rowid, rows)
  }

  lemma {:induction false} InsertSorts(sorted: seq<Row>, r: Row)
    requires Pairwise(Before, sorted)
    requires forall x :: x in sorted ==> x.rowid != r.rowid
    ensures Pairwise(Before, Insert(sorted, r))
  {
    if sorted != [] {
      var init, last := sorted[..|sorted| - 1], sorted[|sorted| - 1];
      if Before(r, last) {
        InsertSorts(init, r);
        var s := Insert(init, r);
        forall i | 0 <= i < |s| ensures Before(s[i], last) {
          assert s[i] in multiset(s);
          assert s[i] in init || s[i] == r;
        }
      } else {
        assert Before(last, r) by { assert last in sorted; }
      }
    }
  }

  /** Whatever the timestamps, the replay query returns every selected row once, in ts
      order, and rows of equal ts in the order they were inserted. */
  lemma {:induction false} SortSorts(rows: seq<Row>)
    requires DistinctRowids(rows)
    ensures Pairwise(Before, Sort(rows)) && multiset(Sort(rows)) == multiset(rows)
  {
    if rows != [] {
      var init, last := rows[..|rows| - 1], rows[|rows| - 1];
      SortSorts(init);
      forall x | x in Sort(init) ensures x.rowid != last.rowid {
        assert x in multiset(Sort(init));
        assert x in init;
      }
      InsertSorts(Sort(init), last);
    }
  }

  lemma InsertLast(sorted: seq<Row>, r: Row)
    requires sorted == [] || Before(sorted[|sorted| - 1], r)
    ensures Insert(sorted, r) == sorted + [r]
  {
  }

  /** Rows already in replay order are left as they are. */
  lemma {:induction false} SortOfSorted(rows: seq<Row>)
    requires Pairwise(Before, rows)
    ensures Sort(rows) == rows
  {
    if rows != [] {
      var init, last := rows[..|rows| - 1], rows[|rows| - 1];
      assert Pairwise(Before, init);
      assert init != [] ==> Before(init[|init| - 1], last);
      SortOfSorted(init);
      InsertLast(init, last);
      assert init + [last] == rows;
    }
  }

  // ---- statements ----

  function MaxRowid(rows: seq<Row>): (m: int)
    ensures m >= 0 && forall r :: r in rows ==> r.rowid <= m
  {
    if rows == [] then 0
    else
      var m := MaxRowid(rows[..|rows| - 1]);
      var last := rows[|rows| - 1];
      assert forall r :: r in rows ==> r in rows[..|rows| - 1] || r == last;
      if last.rowid > m then last.rowid else m
  }

  /** INSERT OR IGNORE; last_active takes its default, 0. */
  function CreateQueue(db: Db, qid: string, now: int): Db {
    if qid in db.queues then db else db.(queues := db.queues[qid := QueueRow(now, 0)])
  }

  /** The primary key on mid and the foreign key on qid. */
  predicate MaySave(db: Db, mid: string, qid: string) {
    (forall r :: r in db.rows ==> r.mid != mid) && qid in db.queues
  }

  function SaveMessage(db: Db, mid: string, qid: string, payload: Payload, ts: int): Db {
    db.(rows := db.rows + [Row(mid, qid, payload, ts, false, MaxRowid(db.rows) + 1)])
  }

  function Undelivered(db: Db, qid: string): seq<Row> {
    Sort(Filter(db.rows, (r: Row) => r.qid == qid && !r.delivered))
  }

  function TouchQueue(db: Db, qid: string, now: int): Db {
    if qid in db.queues then db.(queues := db.queues[qid := db.queues[qid].(lastActive := now)]) else db
  }

  function DeleteMessage(db: Db, mid: string): Db {
    db.(rows := Filter(db.rows, (r: Row) => r.mid != mid))
  }

  function Marked(r: Row, mid: string): Row {
    if r.mid == mid then r.(delivered := true) else r
  }

  function MarkDelivered(db: Db, mid: string): Db {
    db.(rows := seq(|db.rows|, i requires 0 <= i < |db.rows| => Marked(db.rows[i], mid)))
  }

  /** last_active < cutoff AND last_active > 0. */
  predicate Expired(q: QueueRow, cutoff: int) {
    0 < q.lastActive < cutoff
  }

  predicate InExpiredQueue(db: Db, r: Row, cutoff: int) {
    r.qid in db.queues && Expired(db.queues[r.qid], cutoff)
  }

  /** Sweep's first statement: the messages of expired queues. */
  function SweepMessages(db: Db, cutoff: int): Db {
    db.(rows := Filter(db.rows, (r: Row) => !InExpiredQueue(db, r, cutoff)))
  }

  /** Sweep's second statement removes the expired queues; the foreign key refuses the
      whole statement while a message refers to one of them. */
  predicate MaySweepQueues(db: Db, cutoff: int) {
    forall r :: r in db.rows ==> !InExpiredQueue(db, r, cutoff)
  }

  function SweepQueues(db: Db, cutoff: int): Db {
    db.(queues := map q | q in db.queues && !Expired(db.queues[q], cutoff) :: db.queues[q])
  }

  /** Sweep's third statement: residue marked delivered and old. */
  function SweepResidue(db: Db, cutoff: int): Db {
    db.(rows := Filter(db.rows, (r: Row) => !(r.delivered && r.ts < cutoff)))
  }

  // ---- integrity ----

  /** Primary key, foreign key and the rowid order of the scan. */
  ghost predicate Intact(db: Db) {
    && Pairwise((a: Row, b: Row) => a.mid != b.mid && a.rowid < b.rowid, db.rows)
    && forall r :: r in db.rows ==> r.qid in db.queues
  }

  /** Whatever the clock did, the replay of a queue is each of its undelivered rows once, by
      ts, and rows of one second in the order of their insertion. */
  lemma ReplayIsSorted(db: Db, qid: string)
    requires Intact(db)
    ensures var rows := Undelivered(db, qid);
      forall i, j :: 0 <= i < j < |rows| ==>
        rows[i].ts < rows[j].ts || (rows[i].ts == rows[j].ts && rows[i].rowid < rows[j].rowid)
    ensures forall r :: r in Undelivered(db, qid) <==> r in db.rows && r.qid == qid && !r.delivered
  {
    var keep := (r: Row) => r.qid == qid && !r.delivered;
    var picked := Filter(db.rows, keep);
    FilterKeepsOrder(db.rows, keep, (a: Row, b: Row) => a.rowid != b.rowid);
    SortSorts(picked);
    assert forall r :: r in Sort(picked) <==> r in multiset(Sort(picked));
    assert forall r :: r in picked <==> r in multiset(picked);
  }

  /** A message marked delivered is not replayed again; all others are. */
  lemma MarkedIsNotReplayed(db: Db, mid: string, qid: string, r: Row)
    requires Intact(db)
    ensures r in Undelivered(MarkDelivered(db, mid), qid) <==> r in Undelivered(db, qid) && r.mid != mid
  {
    var db' := MarkDelivered(db, mid);
    StatementsKeepIntact(db, mid, qid, r.payload, 0, 0);
    ReplayIsSorted(db, qid);
    ReplayIsSorted(db', qid);
    if r in db.rows && r.mid != mid {
      var i :| 0 <= i < |db.rows| && db.rows[i] == r;
      assert db'.rows[i] == r;
    }
    if r in db'.rows && !r.delivered {
      var i :| 0 <= i < |db'.rows| && db'.rows[i] == r;
      assert db.rows[i] == r;
    }
  }

  /** What each of the sweep's statements leaves, for any cutoff. */
  lemma SweepLeaves(db: Db, cutoff: int)
    ensures forall r :: r in SweepMessages(db, cutoff).rows <==>
      r in db.rows && !(r.qid in db.queues && 0 < db.queues[r.qid].lastActive < cutoff)
    ensures forall q :: q in SweepQueues(db, cutoff).queues <==>
      q in db.queues && !(0 < db.queues[q].lastActive < cutoff)
    ensures forall r :: r in SweepResidue(db, cutoff).rows <==> r in db.rows && !(r.delivered && r.ts < cutoff)
  {
  }

  lemma DeletionKeepsIntact(db: Db, keep: Row -> bool)
    requires Intact(db)
    ensures Intact(db.(rows := Filter(db.rows, keep)))
  {
    FilterKeepsOrder(db.rows, keep, (a: Row, b: Row) => a.mid != b.mid && a.rowid < b.rowid);
  }

  /** Every statement keeps both keys, whoever runs it and whenever. */
  lemma StatementsKeepIntact(db: Db, mid: string, qid: string, payload: Payload, now: int, cutoff: int)
    requires Intact(db)
    ensures Intact(CreateQueue(db, qid, now)) && Intact(TouchQueue(db, qid, now))
    ensures MaySave(db, mid, qid) ==> Intact(SaveMessage(db, mid, qid, payload, now))
    ensures Intact(DeleteMessage(db, mid)) && Intact(MarkDelivered(db, mid))
    ensures Intact(SweepMessages(db, cutoff)) && Intact(SweepResidue(db, cutoff))
    ensures MaySweepQueues(db, cutoff) ==> Intact(SweepQueues(db, cutoff))
  {
    DeletionKeepsIntact(db, (r: Row) => r.mid != mid);
    DeletionKeepsIntact(db, (r: Row) => !InExpiredQueue(db, r, cutoff));
    DeletionKeepsIntact(db, (r: Row) => !(r.delivered && r.ts < cutoff));
    assert Intact(MarkDelivered(db, mid)) by {
      var rows := MarkDelivered(db, mid).rows;
      forall r | r in rows ensures r.qid in db.queues {
        var i :| 0 <= i < |rows| && rows[i] == r;
        assert db.rows[i] in db.rows;
      }
    }
  }

  /** The first statement leaves the second nothing to be refused for. */
  lemma SweepMessagesClearsTheWay(db: Db, cutoff: int)
    ensures MaySweepQueues(SweepMessages(db, cutoff), cutoff)
    ensures forall r :: r in db.rows && r !in SweepMessages(db, cutoff).rows ==> InExpiredQueue(db, r, cutoff)
  {
  }
}
