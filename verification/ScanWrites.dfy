/** What one commit of the scanner writes, in terms of the blocks it looked at. */
module ScanWrites {
  import opened Events
  import opened ChainModel
  import opened Deposits
  import DC = DepositConservation

  // ---- the logs of the scanned blocks ----

  /** A mined transfer to a watched address by somebody else. */
  predicate IsDeposit(x: Included, watched: set<Addr>)
  {
    x.logIndex.Some? && x.info.recipient in watched && x.info.sender !in watched
  }

  function DepositOf(x: Included): DepositId
    requires x.logIndex.Some?
  {
    DepositId(x.tx, x.logIndex.value)
  }

  /** Block `b` of the batch holds deposit transaction `x`. */
  predicate Holds(batch: seq<Block>, watched: set<Addr>, b: Block, x: Included)
  {
    b in batch && x in b.txs && IsDeposit(x, watched)
  }

  predicate EntryFor(e: LogEntry, b: Block, x: Included)
  {
    x.logIndex.Some? && e == LogEntry(DepositOf(x), x.info.sender, x.info.recipient, x.info.amount, b.number, b.hash)
  }

  lemma {:induction false} ExternalAre(b: Block, txs: seq<Included>, watched: set<Addr>)
    ensures forall e :: e in External(b, txs, watched) ==>
              exists x :: x in txs && IsDeposit(x, watched) && EntryFor(e, b, x)
    ensures forall x :: x in txs && IsDeposit(x, watched) ==>
              exists e :: e in External(b, txs, watched) && EntryFor(e, b, x)
  {
    if txs != [] {
      var front, y := txs[..|txs| - 1], txs[|txs| - 1];
      ExternalAre(b, front, watched);
      assert txs == front + [y];
      if IsDeposit(y, watched) {
        var e := LogEntry(DepositOf(y), y.info.sender, y.info.recipient, y.info.amount, b.number, b.hash);
        assert External(b, txs, watched) == External(b, front, watched) + [e];
        assert EntryFor(e, b, y);
      } else {
        assert External(b, txs, watched) == External(b, front, watched);
      }
      ExternalMore(b, front, y, watched);
    }
  }

  lemma ExternalMore(b: Block, front: seq<Included>, y: Included, watched: set<Addr>)
    requires forall e :: e in External(b, front, watched) ==>
               exists x :: x in front && IsDeposit(x, watched) && EntryFor(e, b, x)
    requires forall x :: x in front && IsDeposit(x, watched) ==>
               exists e :: e in External(b, front, watched) && EntryFor(e, b, x)
    requires forall e :: e in External(b, front + [y], watched) <==>
               e in External(b, front, watched) || (IsDeposit(y, watched) && EntryFor(e, b, y))
    ensures forall e :: e in External(b, front + [y], watched) ==>
              exists x :: x in front + [y] && IsDeposit(x, watched) && EntryFor(e, b, x)
    ensures forall x :: x in front + [y] && IsDeposit(x, watched) ==>
              exists e :: e in External(b, front + [y], watched) && EntryFor(e, b, x)
  {
    forall e | e in External(b, front + [y], watched)
      ensures exists x :: x in front + [y] && IsDeposit(x, watched) && EntryFor(e, b, x)
    {
      if e in External(b, front, watched) {
        var x :| x in front && IsDeposit(x, watched) && EntryFor(e, b, x);
        assert x in front + [y];
      } else {
        assert (front + [y])[|front|] == y;
      }
    }
    forall x | x in front + [y] && IsDeposit(x, watched)
      ensures exists e :: e in External(b, front + [y], watched) && EntryFor(e, b, x)
    {
      if x in front {
        var e :| e in External(b, front, watched) && EntryFor(e, b, x);
        assert e in External(b, front + [y], watched);
      } else {
        var e := LogEntry(DepositOf(x), x.info.sender, x.info.recipient, x.info.amount, b.number, b.hash);
        assert e in External(b, front + [y], watched);
      }
    }
  }

  /** The entries of a batch are its deposit transactions, no more and no less. */
  lemma {:induction false} EntriesAre(batch: seq<Block>, watched: set<Addr>)
    ensures forall e :: e in Entries(batch, watched) ==> exists b, x :: Holds(batch, watched, b, x) && EntryFor(e, b, x)
    ensures forall b, x :: Holds(batch, watched, b, x) ==> exists e :: e in Entries(batch, watched) && EntryFor(e, b, x)
  {
    if batch != [] {
      var front, last := batch[..|batch| - 1], batch[|batch| - 1];
      assert batch == front + [last];
      EntriesAre(front, watched);
      ExternalAre(last, last.txs, watched);
      forall e | e in Entries(batch, watched) ensures exists b, x :: Holds(batch, watched, b, x) && EntryFor(e, b, x) {
        if e in Entries(front, watched) {
          var b, x :| Holds(front, watched, b, x) && EntryFor(e, b, x);
          assert Holds(batch, watched, b, x);
        } else {
          var x :| x in last.txs && IsDeposit(x, watched) && EntryFor(e, last, x);
          assert Holds(batch, watched, last, x);
        }
      }
      forall b, x | Holds(batch, watched, b, x) ensures exists e :: e in Entries(batch, watched) && EntryFor(e, b, x) {
        if b in front {
          assert Holds(front, watched, b, x);
        }
      }
    }
  }

  // ---- which of several entries counts ----

  /** A deposit without a row, or with one a reorg knocked out, gets the row of its first entry. */
  lemma {:induction false} FirstEntryCounts(s: State, es: seq<LogEntry>, k: nat)
    requires k < |es| && !Live(s, es[k].id) && forall j :: 0 <= j < k ==> es[j].id != es[k].id
    ensures var t, e := UpsertAll(s, es), es[k];
            && e.id in t.rows && DepositDetected(e.id, e.hash) in t.log
            && t.rows[e.id] == if e.id in s.rows
                               then Row(s.rows[e.id].sender, s.rows[e.id].recipient, s.rows[e.id].amount, e.number,
                                        e.hash, 0, Detected)
                               else Row(e.sender, e.recipient, e.amount, e.number, e.hash, 0, Detected)
  {
    var front, last := es[..|es| - 1], es[|es| - 1];
    if k < |es| - 1 {
      FirstEntryCounts(s, front, k);
    } else {
      OthersStay(s, front, last.id);
      DetectedEnters(UpsertAll(s, front).log, last.id, last.hash);
    }
  }

  lemma DetectedEnters(log: seq<Event>, id: DepositId, h: Hash)
    ensures DepositDetected(id, h) in Enqueue(log, DepositDetected(id, h))
  {
    if Emitted(log, DetectedId(id, h)) {
      var e :| e in log && Id(e) == DetectedId(id, h);
      assert e == DepositDetected(id, h);
    }
  }

  /** Rows that are live, or that no entry names, stay as they are. */
  lemma {:induction false} OthersStay(s: State, es: seq<LogEntry>, id: DepositId)
    requires Live(s, id) || forall e :: e in es ==> e.id != id
    ensures var t := UpsertAll(s, es);
            (id in t.rows <==> id in s.rows) && (id in s.rows ==> t.rows[id] == s.rows[id])
  {
    if es != [] {
      assert es == es[..|es| - 1] + [es[|es| - 1]];
      OthersStay(s, es[..|es| - 1], id);
    }
  }

  /** Only detections of deposits without a live row are emitted. */
  lemma {:induction false} OnlyDetections(s: State, es: seq<LogEntry>)
    ensures s.log <= UpsertAll(s, es).log
    ensures forall e :: e in UpsertAll(s, es).log ==>
              e in s.log || exists f :: f in es && !Live(s, f.id) && e == DepositDetected(f.id, f.hash)
  {
    if es != [] {
      var front, last := es[..|es| - 1], es[|es| - 1];
      assert es == front + [last];
      OnlyDetections(s, front);
      if Live(s, last.id) {
        OthersStay(s, front, last.id);
      }
      forall e | e in UpsertAll(s, es).log
        ensures e in s.log || exists f :: f in es && !Live(s, f.id) && e == DepositDetected(f.id, f.hash)
      {
        if e in UpsertAll(s, front).log && e !in s.log {
          var f :| f in front && !Live(s, f.id) && e == DepositDetected(f.id, f.hash);
          assert f in es;
        } else if e !in s.log {
          assert last in es;
        }
      }
    }
  }

  // ---- the commit ----

  /** The row a deposit transaction gets, and the event that announces it. */
  predicate Registered(rows: map<DepositId, Row>, log: seq<Event>, b: Block, x: Included)
    requires x.logIndex.Some?
  {
    var id := DepositId(x.tx, x.logIndex.value);
    && id in rows
    && rows[id] == Row(x.info.sender, x.info.recipient, x.info.amount, b.number, b.hash, 0, Detected)
    && DepositDetected(id, b.hash) in log
  }

  predicate Missing(rows: map<DepositId, Row>, id: DepositId) { id !in rows || rows[id].status == Reorged }

  /**
    * Every deposit transaction of the batch without a row, or with a REORGED one, is registered; all other rows
    * are as they were; and nothing else is announced.
    */
  ghost predicate Written(
      rows: map<DepositId, Row>, log: seq<Event>, rows1: map<DepositId, Row>, log1: seq<Event>, batch: seq<Block>,
      watched: set<Addr>)
  {
    && (forall b, x :: Holds(batch, watched, b, x) && Missing(rows, DepositOf(x)) ==> Registered(rows1, log1, b, x))
    && (forall id :: id in rows1 ==>
          || (id in rows && rows1[id] == rows[id])
          || (Missing(rows, id) && exists b, x :: Holds(batch, watched, b, x) && DepositOf(x) == id))
    && (forall id :: id in rows ==> id in rows1 && (!Missing(rows, id) ==> rows1[id] == rows[id]))
    && log <= log1
    && (forall e :: e in log1 ==>
          || e in log
          || exists b, x :: Holds(batch, watched, b, x) && Missing(rows, DepositOf(x))
                            && e == DepositDetected(DepositOf(x), b.hash))
  }

  /** One chain holds a deposit at most once. */
  lemma OnePlace(batch: seq<Block>, watched: set<Addr>, b: Block, x: Included, c: Block, y: Included)
    requires TxOnce(batch) && Holds(batch, watched, b, x) && Holds(batch, watched, c, y) && x.tx == y.tx
    ensures b == c && x == y
  {
    var i :| 0 <= i < |batch| && batch[i] == b;
    var j :| 0 <= j < |batch| && batch[j] == c;
    assert HasTx(b, x.tx) && HasTx(c, x.tx);
    var k :| 0 <= k < |b.txs| && b.txs[k] == x;
    var l :| 0 <= l < |c.txs| && c.txs[l] == y;
  }

  /** What the store and the tables say of a deposit is what its transaction says. */
  ghost predicate SameTerms(rows: map<DepositId, Row>, batch: seq<Block>, watched: set<Addr>)
  {
    forall b, x :: Holds(batch, watched, b, x) && DepositOf(x) in rows ==>
      var r := rows[DepositOf(x)];
      r.sender == x.info.sender && r.recipient == x.info.recipient && r.amount == x.info.amount
  }

  lemma DepositIsRegistered(s: State, batch: seq<Block>, watched: set<Addr>, b: Block, x: Included)
    requires TxOnce(batch) && SameTerms(s.rows, batch, watched)
    requires Holds(batch, watched, b, x) && !Live(s, DepositOf(x))
    ensures var t := UpsertAll(s, Entries(batch, watched)); Registered(t.rows, t.log, b, x)
  {
    var es := Entries(batch, watched);
    EntriesAre(batch, watched);
    var e :| e in es && EntryFor(e, b, x);
    var k := FirstOf(es, e.id);
    assert es[k] in es;
    var c, y :| Holds(batch, watched, c, y) && EntryFor(es[k], c, y);
    OnePlace(batch, watched, b, x, c, y);
    FirstEntryCounts(s, es, k);
  }

  lemma {:induction false} FirstOf(es: seq<LogEntry>, id: DepositId) returns (k: nat)
    requires exists e :: e in es && e.id == id
    ensures k < |es| && es[k].id == id && forall j :: 0 <= j < k ==> es[j].id != id
  {
    var front := es[..|es| - 1];
    assert es == front + [es[|es| - 1]];
    if exists e :: e in front && e.id == id {
      k := FirstOf(front, id);
    } else {
      k := |es| - 1;
    }
  }

  lemma CommitWrites(s: State, batch: seq<Block>, watched: set<Addr>)
    requires TxOnce(batch) && SameTerms(s.rows, batch, watched)
    ensures var t := UpsertAll(s, Entries(batch, watched));
            Written(s.rows, s.log, t.rows, t.log, batch, watched)
  {
    var es := Entries(batch, watched);
    var t := UpsertAll(s, es);
    EntriesAre(batch, watched);
    OnlyDetections(s, es);
    forall b, x | Holds(batch, watched, b, x) && Missing(s.rows, DepositOf(x)) ensures Registered(t.rows, t.log, b, x) {
      DepositIsRegistered(s, batch, watched, b, x);
    }
    forall id ensures Live(s, id) || (forall e :: e in es ==> e.id != id) ==>
                        (id in t.rows <==> id in s.rows) && (id in s.rows ==> t.rows[id] == s.rows[id])
    {
      if Live(s, id) || forall e :: e in es ==> e.id != id {
        OthersStay(s, es, id);
      }
    }
    RowsAreWritten(s, t, es, batch, watched);
  }

  lemma RowsAreWritten(s: State, t: State, es: seq<LogEntry>, batch: seq<Block>, watched: set<Addr>)
    requires forall e :: e in es ==> exists b, x :: Holds(batch, watched, b, x) && EntryFor(e, b, x)
    requires forall b, x :: Holds(batch, watched, b, x) && Missing(s.rows, DepositOf(x)) ==>
               Registered(t.rows, t.log, b, x)
    requires forall id :: Live(s, id) || (forall e :: e in es ==> e.id != id) ==>
               (id in t.rows <==> id in s.rows) && (id in s.rows ==> t.rows[id] == s.rows[id])
    requires s.log <= t.log
    requires forall e :: e in t.log ==>
               e in s.log || exists f :: f in es && !Live(s, f.id) && e == DepositDetected(f.id, f.hash)
    ensures Written(s.rows, s.log, t.rows, t.log, batch, watched)
  {
    forall id | id in t.rows && !(id in s.rows && t.rows[id] == s.rows[id])
      ensures Missing(s.rows, id) && exists b, x :: Holds(batch, watched, b, x) && DepositOf(x) == id
    {
      var e :| e in es && e.id == id;
      var b, x :| Holds(batch, watched, b, x) && EntryFor(e, b, x);
    }
    forall id | id in s.rows ensures id in t.rows {
      if !Live(s, id) && exists e :: e in es && e.id == id {
        var e :| e in es && e.id == id;
        var b, x :| Holds(batch, watched, b, x) && EntryFor(e, b, x);
        assert Registered(t.rows, t.log, b, x);
      }
    }
    forall e | e in t.log && e !in s.log
      ensures exists b, x :: Holds(batch, watched, b, x) && Missing(s.rows, DepositOf(x))
                             && e == DepositDetected(DepositOf(x), b.hash)
    {
      var f :| f in es && !Live(s, f.id) && e == DepositDetected(f.id, f.hash);
      var b, x :| Holds(batch, watched, b, x) && EntryFor(f, b, x);
    }
  }

  // ---- where the hypotheses come from ----

  /** The blocks of a range of one chain. */
  lemma BlocksAre(path: seq<Block>, first: nat, last: nat)
    requires Linked(path) && TxOnce(path) && 1 <= first <= last
    ensures forall b :: b in Blocks(path, first, last) <==> b in path && first <= b.number <= last
    ensures TxOnce(Blocks(path, first, last))
  {
    var batch := Blocks(path, first, last);
    forall b | b in path && first <= b.number <= last ensures b in batch {
      var i :| 0 <= i < |path| && path[i] == b;
      assert path[i].number == i + 1 && batch[i - (first - 1)] == b;
    }
    forall b | b in batch ensures b in path && first <= b.number <= last {
      var k :| 0 <= k < |batch| && batch[k] == b;
      assert path[first - 1 + k] == b && path[first - 1 + k].number == first + k;
    }
    forall i, j, tx | 0 <= i < j < |batch| && HasTx(batch[i], tx) ensures !HasTx(batch[j], tx) {
      assert batch[i] == path[first - 1 + i] && batch[j] == path[first - 1 + j];
    }
  }

  lemma {:induction false} SubmittedStays(c: Chain, steps: seq<NodeStep>)
    ensures forall tx :: tx in c.submitted ==>
              tx in NodeRun(c, steps).submitted && NodeRun(c, steps).submitted[tx] == c.submitted[tx]
    decreases |steps|
  {
    if steps != [] {
      SubmittedStays(NodeNext(c, steps[0]), steps[1..]);
    }
  }

  /** A row found in an earlier chain carries the terms of the transaction in a later one. */
  lemma TermsAgree(s: State, c: Chain, batch: seq<Block>, watched: set<Addr>)
    requires DC.Inv(s) && ChainOk(c) && forall b :: b in batch ==> b in c.path
    requires forall tx :: tx in s.chain.submitted ==> tx in c.submitted && c.submitted[tx] == s.chain.submitted[tx]
    ensures SameTerms(s.rows, batch, watched)
  {
    forall b, x | Holds(batch, watched, b, x) && DepositOf(x) in s.rows
      ensures var r := s.rows[DepositOf(x)];
              r.sender == x.info.sender && r.recipient == x.info.recipient && r.amount == x.info.amount
    {
      assert DC.RowOk(s.chain, DepositOf(x), s.rows[DepositOf(x)]);
      var i :| 0 <= i < |c.path| && c.path[i] == b;
      assert c.blocks[b.hash] == b && FromMempool(c.blocks[b.hash].txs, c.submitted);
    }
  }
}
