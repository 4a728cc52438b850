/**
  * What the watcher can read at its commit to know that a negative verdict is still true: the verdict
  * it would reach now, and the scanner's cursor.
  */
module DepositVerdicts {
  import opened Events
  import opened ChainModel
  import opened Deposits
  import opened DepositHistory
  import opened DepositCompleteness
  import opened AtomicTicks
  import DC = DepositConservation

  // ---- how rows and scans belong together, in every run ----

  /** Some scan of block `h` watched address `a`. */
  ghost predicate WatchedAt(scans: set<ScanRecord>, h: Hash, a: Addr)
  {
    exists r :: r in scans && r.hash == h && a in r.watched
  }

  ghost predicate ScansKnown(scans: set<ScanRecord>, addresses: set<Addr>)
  {
    forall r :: r in scans ==> r.watched <= addresses
  }

  ghost predicate RecipientsIn(rows: map<DepositId, Row>, addresses: set<Addr>)
  {
    forall id :: id in rows ==> rows[id].recipient in addresses
  }

  /** A canonical scanned block that holds a deposit with a row was scanned while its recipient was watched. */
  ghost predicate RowsTraced(c: Chain, rows: map<DepositId, Row>, scans: set<ScanRecord>)
  {
    forall id, h {:trigger OnPath(c, h), id in rows} ::
      id in rows && OnPath(c, h) && Scanned(scans, h) && HasLog(c.blocks[h], id) ==>
        WatchedAt(scans, h, rows[id].recipient)
  }

  ghost predicate SharesTx(a: Block, b: Block) { exists tx :: HasTx(a, tx) && HasTx(b, tx) }

  /** No canonical scanned block other than those of the batch holds a transaction of the batch. */
  ghost predicate BatchAlone(c: Chain, scans: set<ScanRecord>, batch: seq<Block>)
  {
    forall b, h {:trigger SharesTx(c.blocks[h], b)} ::
      b in batch && h in c.blocks && OnPath(c, h) && Scanned(scans, h) && SharesTx(c.blocks[h], b) ==> c.blocks[h] == b
  }

  ghost predicate HandTraced(s: State)
  {
    match s.scan
    case LogsRead(_, _, watched, batch) =>
      watched <= s.addresses && RecipientsIn(s.rows, watched) && BatchAlone(s.chain, s.scans, batch)
    case TipRead(_, _, watched, batch, _) =>
      watched <= s.addresses && RecipientsIn(s.rows, watched) && BatchAlone(s.chain, s.scans, batch)
    case _ => true
  }

  ghost predicate Traced(s: State)
  {
    && ScansKnown(s.scans, s.addresses)
    && RecipientsIn(s.rows, s.addresses)
    && RowsTraced(s.chain, s.rows, s.scans)
    && HandTraced(s)
  }

  // ---- the chain moves ----

  lemma PathShrinks(c: Chain, step: NodeStep, h: Hash)
    requires ChainOk(c) && NodeEnabled(c, step) && h in c.blocks
    ensures OnPath(NodeNext(c, step), h) ==> OnPath(c, h)
    ensures h in NodeNext(c, step).blocks && NodeNext(c, step).blocks[h] == c.blocks[h]
  {
    NeverReturns(c, step, h);
  }

  lemma ChainKeepsRowsTraced(c: Chain, step: NodeStep, rows: map<DepositId, Row>, scans: set<ScanRecord>)
    requires ChainOk(c) && NodeEnabled(c, step) && RowsTraced(c, rows, scans)
    requires forall r :: r in scans ==> r.hash in c.blocks
    ensures RowsTraced(NodeNext(c, step), rows, scans)
  {
    var d := NodeNext(c, step);
    forall id, h | id in rows && OnPath(d, h) && Scanned(scans, h) && HasLog(d.blocks[h], id)
      ensures WatchedAt(scans, h, rows[id].recipient)
    {
      PathShrinks(c, step, h);
    }
  }

  lemma ChainKeepsBatchAlone(c: Chain, step: NodeStep, scans: set<ScanRecord>, batch: seq<Block>)
    requires ChainOk(c) && NodeEnabled(c, step) && BatchAlone(c, scans, batch)
    requires forall r :: r in scans ==> r.hash in c.blocks
    ensures BatchAlone(NodeNext(c, step), scans, batch)
  {
    var d := NodeNext(c, step);
    forall b, h | b in batch && h in d.blocks && OnPath(d, h) && Scanned(scans, h) && SharesTx(d.blocks[h], b)
      ensures d.blocks[h] == b
    {
      PathShrinks(c, step, h);
    }
  }

  lemma ChainKeepsTraced(s: State, cfg: Settings, step: NodeStep)
    requires History(s) && Traced(s) && NodeEnabled(s.chain, step)
    ensures Traced(Next(s, cfg, ChainStep(step)))
  {
    ChainKeepsRowsTraced(s.chain, step, s.rows, s.scans);
    if s.scan.LogsRead? || s.scan.TipRead? {
      ChainKeepsBatchAlone(s.chain, step, s.scans, s.scan.batch);
    }
  }

  // ---- the scanner ----

  /** What is read together is on one path, where a transaction is in one block only. */
  lemma BatchOfPathAlone(c: Chain, scans: set<ScanRecord>, batch: seq<Block>)
    requires ChainOk(c) && forall b :: b in batch ==> b in c.path
    ensures BatchAlone(c, scans, batch)
  {
    forall b, h | b in batch && h in c.blocks && OnPath(c, h) && Scanned(scans, h) && SharesTx(c.blocks[h], b)
      ensures c.blocks[h] == b
    {
      var j :| 0 <= j < |c.path| && c.path[j] == b;
      var tx :| HasTx(c.blocks[h], tx) && HasTx(b, tx);
      SameTxSameBlock(c, h, j, tx);
    }
  }

  lemma SameTxSameBlock(c: Chain, h: Hash, j: nat, tx: TxRef)
    requires ChainOk(c) && OnPath(c, h) && j < |c.path| && HasTx(c.blocks[h], tx) && HasTx(c.path[j], tx)
    ensures c.blocks[h] == c.path[j]
  {
    var i := c.blocks[h].number - 1;
    assert c.blocks[c.path[i].hash] == c.path[i];
    assert HasTx(c.path[i], tx);
  }

  lemma {:induction false} EntryInBatch(batch: seq<Block>, watched: set<Addr>, e: LogEntry)
    requires e in Entries(batch, watched)
    ensures e.recipient in watched && exists b :: b in batch && HasLog(b, e.id)
  {
    var last := |batch| - 1;
    var b := batch[last];
    if e in Entries(batch[..last], watched) {
      EntryInBatch(batch[..last], watched, e);
      assert batch == batch[..last] + [b];
    } else {
      EntryInBlock(b, b.txs, watched, e);
      assert b in batch;
    }
  }

  lemma {:induction false} EntryInBlock(b: Block, txs: seq<Included>, watched: set<Addr>, e: LogEntry)
    requires e in External(b, txs, watched) && forall x :: x in txs ==> x in b.txs
    ensures e.recipient in watched && HasLog(b, e.id)
  {
    var x := txs[|txs| - 1];
    assert x in b.txs;
    if e in External(b, txs[..|txs| - 1], watched) {
      EntryInBlock(b, txs[..|txs| - 1], watched, e);
    }
  }

  lemma {:induction false} UpsertAllKeepsRows(s: State, es: seq<LogEntry>, id: DepositId)
    requires id in s.rows
    ensures id in UpsertAll(s, es).rows && UpsertAll(s, es).rows[id].recipient == s.rows[id].recipient
  {
    if es != [] {
      UpsertAllKeepsRows(s, es[..|es| - 1], id);
    }
  }

  /** The scanner only adds rows, and no row changes its recipient. */
  lemma {:induction false} UpsertAllRecipients(s: State, es: seq<LogEntry>, id: DepositId)
    requires id in UpsertAll(s, es).rows
    ensures if id in s.rows then UpsertAll(s, es).rows[id].recipient == s.rows[id].recipient
            else exists e :: e in es && e.id == id && e.recipient == UpsertAll(s, es).rows[id].recipient
  {
    if id in s.rows {
      UpsertAllKeepsRows(s, es, id);
    } else if es != [] {
      var front := es[..|es| - 1];
      assert es == front + [es[|es| - 1]];
      if id in UpsertAll(s, front).rows {
        UpsertAllRecipients(s, front, id);
      } else {
        assert es[|es| - 1] in es;
      }
    }
  }

  lemma CommitRecipients(s: State, es: seq<LogEntry>, batch: seq<Block>, watched: set<Addr>)
    requires RecipientsIn(s.rows, watched) && es == Entries(batch, watched)
    ensures RecipientsIn(UpsertAll(s, es).rows, watched)
  {
    var rows := UpsertAll(s, es).rows;
    forall id | id in rows ensures rows[id].recipient in watched {
      UpsertAllRecipients(s, es, id);
      if id !in s.rows {
        var e :| e in es && e.id == id && e.recipient == rows[id].recipient;
        EntryInBatch(batch, watched, e);
      }
    }
  }

  lemma SharesLog(a: Block, b: Block, id: DepositId)
    requires HasLog(a, id) && HasLog(b, id)
    ensures SharesTx(a, b)
  {
    var x :| x in a.txs && x.tx == id.tx && x.logIndex == Some(id.logIndex);
    var y :| y in b.txs && y.tx == id.tx && y.logIndex == Some(id.logIndex);
    assert HasTx(a, id.tx) && HasTx(b, id.tx);
  }

  /** One row and one canonical block after the commit. */
  lemma CommitTraces(s: State, cfg: Settings, id: DepositId, h: Hash)
    requires DC.Inv(s) && Traced(s) && s.scan.TipRead?
    requires var t := Next(s, cfg, ScanCommit);
             id in t.rows && OnPath(s.chain, h) && Scanned(t.scans, h) && HasLog(s.chain.blocks[h], id)
    ensures var t := Next(s, cfg, ScanCommit); WatchedAt(t.scans, h, t.rows[id].recipient)
  {
    var batch, watched := s.scan.batch, s.scan.watched;
    var es := Entries(batch, watched);
    var t := Next(s, cfg, ScanCommit);
    UpsertAllTables(s, es);
    CommitRecipients(s, es, batch, watched);
    RecordsOfBatch(s.scans, batch, watched, h);
    UpsertAllRecipients(s, es, id);
    if id in s.rows && Scanned(s.scans, h) {
      var r :| r in s.scans && r.hash == h && s.rows[id].recipient in r.watched;
      assert r in t.scans;
    } else {
      if id !in s.rows && Scanned(s.scans, h) {
        var e :| e in es && e.id == id && e.recipient == t.rows[id].recipient;
        EntryInBatch(batch, watched, e);
        var b :| b in batch && HasLog(b, id);
        SharesLog(s.chain.blocks[h], b, id);
        assert s.chain.blocks[h] == b;
      }
      var b :| b in batch && b.hash == h;
      assert ScanRecord(h, watched) in t.scans;
    }
  }

  lemma CommitKeepsTraced(s: State, cfg: Settings)
    requires DC.Inv(s) && Traced(s) && s.scan.TipRead?
    ensures Traced(Next(s, cfg, ScanCommit))
  {
    var batch, watched := s.scan.batch, s.scan.watched;
    var es := Entries(batch, watched);
    var t := Next(s, cfg, ScanCommit);
    UpsertAllTables(s, es);
    CommitRecipients(s, es, batch, watched);
    forall id, h | id in t.rows && OnPath(t.chain, h) && Scanned(t.scans, h) && HasLog(t.chain.blocks[h], id)
      ensures WatchedAt(t.scans, h, t.rows[id].recipient)
    {
      CommitTraces(s, cfg, id, h);
    }
  }

  // ---- every step, every run ----

  lemma LogsKeepTraced(s: State, cfg: Settings)
    requires ChainOk(s.chain) && Traced(s) && Enabled(s, cfg, ScanLogs)
    ensures Traced(Next(s, cfg, ScanLogs))
  {
    BatchOfPathAlone(s.chain, s.scans, Blocks(s.chain.path, s.scan.first, s.scan.last));
  }

  lemma WatchKeepsTraced(s: State, cfg: Settings)
    requires Traced(s) && Enabled(s, cfg, WatchCommit)
    ensures Traced(Next(s, cfg, WatchCommit))
  {
    var t := Next(s, cfg, WatchCommit);
    assert t.rows.Keys == s.rows.Keys && forall id :: id in s.rows ==> t.rows[id].recipient == s.rows[id].recipient;
    forall id, h | id in t.rows && OnPath(t.chain, h) && Scanned(t.scans, h) && HasLog(t.chain.blocks[h], id)
      ensures WatchedAt(t.scans, h, t.rows[id].recipient)
    {
      assert id in s.rows;
    }
  }

  lemma StepKeepsTraced(s: State, cfg: Settings, step: Step)
    requires DC.Inv(s) && History(s) && Traced(s) && Enabled(s, cfg, step)
    ensures Traced(Next(s, cfg, step))
  {
    match step
    case ChainStep(c) => ChainKeepsTraced(s, cfg, c);
    case ScanLogs => LogsKeepTraced(s, cfg);
    case ScanCommit => CommitKeepsTraced(s, cfg);
    case WatchCommit => WatchKeepsTraced(s, cfg);
    case _ =>
  }

  lemma {:induction false} RunKeepsTraced(s: State, cfg: Settings, steps: seq<Step>)
    requires DC.Inv(s) && History(s) && Traced(s) && ValidRun(s, cfg, steps)
    ensures DC.Inv(Run(s, cfg, steps)) && Traced(Run(s, cfg, steps))
    decreases |steps|
  {
    if steps != [] {
      DC.StepKeeps(s, cfg, steps[0]);
      StepKeepsHistory(s, cfg, steps[0]);
      StepKeepsTraced(s, cfg, steps[0]);
      RunKeepsTraced(Next(s, cfg, steps[0]), cfg, steps[1..]);
    }
  }

  // ---- no scanned canonical block is above the cursor ----

  ghost predicate CapAt(c: Chain, scans: set<ScanRecord>, n: nat)
  {
    forall h {:trigger OnPath(c, h)} :: OnPath(c, h) && Scanned(scans, h) ==> c.blocks[h].number <= n
  }

  ghost predicate Capped(s: State)
  {
    && CapAt(s.chain, s.scans, s.cursor)
    && match s.scan
       case HeadRead(head) => CapAt(s.chain, s.scans, head)
       case Ranged(_, last) => CapAt(s.chain, s.scans, last)
       case LogsRead(_, last, _, _) => CapAt(s.chain, s.scans, last)
       case TipRead(_, last, _, _, _) => CapAt(s.chain, s.scans, last)
       case ScanIdle => true
  }

  lemma ChainKeepsCap(c: Chain, step: NodeStep, scans: set<ScanRecord>, n: nat)
    requires ChainOk(c) && NodeEnabled(c, step) && CapAt(c, scans, n) && forall r :: r in scans ==> r.hash in c.blocks
    ensures CapAt(NodeNext(c, step), scans, n)
  {
    forall h | OnPath(NodeNext(c, step), h) && Scanned(scans, h) ensures NodeNext(c, step).blocks[h].number <= n {
      PathShrinks(c, step, h);
    }
  }

  lemma ChainKeepsCapped(s: State, cfg: Settings, step: NodeStep)
    requires History(s) && Capped(s) && NodeEnabled(s.chain, step)
    ensures Capped(Next(s, cfg, ChainStep(step)))
  {
    ChainKeepsCap(s.chain, step, s.scans, s.cursor);
    match s.scan
    case HeadRead(head) => ChainKeepsCap(s.chain, step, s.scans, head);
    case Ranged(_, last) => ChainKeepsCap(s.chain, step, s.scans, last);
    case LogsRead(_, last, _, _) => ChainKeepsCap(s.chain, step, s.scans, last);
    case TipRead(_, last, _, _, _) => ChainKeepsCap(s.chain, step, s.scans, last);
    case ScanIdle =>
  }

  /** A batch at least as large as the safety margin brings a rewound tick back to where the cursor was. */
  lemma GuardKeepsCapped(s: State, cfg: Settings)
    requires Capped(s) && s.scan.HeadRead? && cfg.batch >= cfg.safety
    ensures Capped(Next(s, cfg, ScanGuard))
  {
    var g := GuardRead(s, cfg, s.scan.head);
    if g.Ranged? {
      forall h | OnPath(s.chain, h) && Scanned(s.scans, h) ensures s.chain.blocks[h].number <= g.last {
        assert s.chain.blocks[h].number <= s.cursor && s.chain.blocks[h].number <= s.scan.head;
      }
    }
  }

  lemma CommitKeepsCapped(s: State, cfg: Settings)
    requires History(s) && Capped(s) && s.scan.TipRead?
    ensures Capped(Next(s, cfg, ScanCommit))
  {
    var batch, watched, last := s.scan.batch, s.scan.watched, s.scan.last;
    var t := Next(s, cfg, ScanCommit);
    UpsertAllTables(s, Entries(batch, watched));
    forall h | OnPath(t.chain, h) && Scanned(t.scans, h) ensures t.chain.blocks[h].number <= last {
      RecordsOfBatch(s.scans, batch, watched, h);
      if !Scanned(s.scans, h) {
        var b :| b in batch && b.hash == h;
        var k :| 0 <= k < |batch| && batch[k] == b;
        assert batch[k].number == s.scan.first + k && s.chain.blocks[h] == b;
      }
    }
  }

  lemma StepKeepsCapped(s: State, cfg: Settings, step: Step)
    requires History(s) && Capped(s) && Enabled(s, cfg, step) && cfg.batch >= cfg.safety
    ensures Capped(Next(s, cfg, step))
  {
    match step
    case ChainStep(c) => ChainKeepsCapped(s, cfg, c);
    case ScanGuard => GuardKeepsCapped(s, cfg);
    case ScanCommit => CommitKeepsCapped(s, cfg);
    case _ =>
  }

  // ---- reading the verdict again ----

  /** Every scan of block `h` that watched the deposit's recipient already watched its sender. */
  ghost predicate OnlyInternalScans(s: State, id: DepositId, h: Hash)
    requires id in s.rows
  {
    forall r :: r in s.scans && r.hash == h && s.rows[id].recipient in r.watched ==> s.rows[id].sender in r.watched
  }

  /** A positive verdict names the one canonical block that holds the deposit's log. */
  lemma NamedBlock(s: State, id: DepositId, h: Hash)
    requires DC.Inv(s) && Live(s, id) && OnPath(s.chain, h) && HasLog(s.chain.blocks[h], id)
    ensures VerdictNow(s, id) == Present(s.chain.blocks[h].number, h)
  {
    DC.CanonicalReceipt(s.chain, id, h);
    assert DC.RowOk(s.chain, id, s.rows[id]);
    var x :| x in s.chain.blocks[h].txs && x.tx == id.tx && x.logIndex == Some(id.logIndex);
    assert FromMempool(s.chain.blocks[h].txs, s.chain.submitted);
    assert HasLogTo(s.chain.blocks[h], id, s.rows[id].recipient);
    assert s.chain.blocks[h].hash == h;
  }

  lemma NamedIsCanonical(s: State, id: DepositId)
    requires DC.Inv(s) && Live(s, id) && VerdictNow(s, id).Present?
    ensures var v := VerdictNow(s, id);
            OnPath(s.chain, v.hash) && HasLog(s.chain.blocks[v.hash], id) && s.chain.blocks[v.hash].number == v.number
  {
    var v := VerdictNow(s, id);
    var b := s.chain.path[v.number - 1];
    assert b.hash == v.hash;
    assert s.chain.blocks[b.hash] == b && b.number == v.number;
    assert DC.RowOk(s.chain, id, s.rows[id]);
    if v.hash != s.rows[id].hash {
      var x :| x in b.txs && x.tx == id.tx && x.logIndex == Some(id.logIndex)
          && x.info.recipient == s.rows[id].recipient;
    }
  }

  lemma LogParties(s: State, id: DepositId, h: Hash, watched: set<Addr>)
    requires DC.Inv(s) && id in s.rows && OnPath(s.chain, h) && HasLog(s.chain.blocks[h], id)
    ensures ExternalLog(s.chain.blocks[h], id, watched) <==>
            s.rows[id].recipient in watched && s.rows[id].sender !in watched
  {
    assert DC.RowOk(s.chain, id, s.rows[id]);
    assert FromMempool(s.chain.blocks[h].txs, s.chain.submitted);
    var x :| x in s.chain.blocks[h].txs && x.tx == id.tx && x.logIndex == Some(id.logIndex);
    assert s.chain.submitted[x.tx] == x.info;
  }

  lemma ExternalIsLog(b: Block, id: DepositId, watched: set<Addr>)
    requires ExternalLog(b, id, watched)
    ensures HasLog(b, id)
  {
  }

  ghost predicate StaleAbsent(s: State)
  {
    s.watch.Judged? && s.watch.verdict.Absent? && Live(s, s.watch.id)
  }

  /**
    * In general: a negative verdict is still true iff re-reading it now is negative too, or the block
    * named now was only ever scanned, for this recipient, with the sender watched as well.
    */
  lemma VerdictTrueIff(s: State)
    requires DC.Inv(s) && StaleAbsent(s)
    ensures var v := VerdictNow(s, s.watch.id);
            VerdictStillTrue(s) <==> v.Absent? || OnlyInternalScans(s, s.watch.id, v.hash)
  {
    var id := s.watch.id;
    var v := VerdictNow(s, id);
    if v.Absent? {
      forall r | r in s.scans && OnPath(s.chain, r.hash) ensures !ExternalLog(s.chain.blocks[r.hash], id, r.watched) {
        AbsentMeansAbsent(s, id, r.hash);
      }
    } else {
      NamedIsCanonical(s, id);
      forall r | r in s.scans && OnPath(s.chain, r.hash)
        ensures ExternalLog(s.chain.blocks[r.hash], id, r.watched) <==>
                r.hash == v.hash && s.rows[id].recipient in r.watched && s.rows[id].sender !in r.watched
      {
        if HasLog(s.chain.blocks[r.hash], id) {
          NamedBlock(s, id, r.hash);
          LogParties(s, id, r.hash, r.watched);
        }
      }
    }
  }

  /** Hence committing a negative verdict keeps every scanned log's row live exactly then. */
  lemma CommitKeepsRowsIff(s: State, cfg: Settings)
    requires DC.Inv(s) && RowsComplete(s) && StaleAbsent(s) && Enabled(s, cfg, WatchCommit)
    ensures var v := VerdictNow(s, s.watch.id);
            RowsComplete(Next(s, cfg, WatchCommit)) <==> v.Absent? || OnlyInternalScans(s, s.watch.id, v.hash)
  {
    RowsIffVerdictStillTrue(s, cfg);
    VerdictTrueIff(s);
  }

  /** If the sender is not an address of the service, what matters is whether the named block was scanned. */
  lemma NotScannedIff(s: State)
    requires DC.Inv(s) && Traced(s) && StaleAbsent(s) && s.rows[s.watch.id].sender !in s.addresses
    ensures var v := VerdictNow(s, s.watch.id);
            VerdictStillTrue(s) <==> v.Absent? || !Scanned(s.scans, v.hash)
  {
    var id := s.watch.id;
    var v := VerdictNow(s, id);
    VerdictTrueIff(s);
    if v.Present? {
      NamedIsCanonical(s, id);
      if Scanned(s.scans, v.hash) {
        var r :| r in s.scans && r.hash == v.hash && s.rows[id].recipient in r.watched;
        assert r.watched <= s.addresses;
      }
    }
  }

  /** With the stored tip in place, the scanned canonical blocks are those at or below the cursor. */
  lemma ScannedIffBelow(s: State, h: Hash)
    requires Complete(s) && Capped(s) && !TipMoved(s) && OnPath(s.chain, h)
    ensures Scanned(s.scans, h) <==> s.chain.blocks[h].number <= s.cursor
  {
    var n := s.chain.blocks[h].number;
    if n <= s.cursor {
      UnmovedTip(s);
      assert s.chain.path[n - 1] == s.chain.path[..s.cursor][n - 1] == s.base[n - 1];
      assert s.base[n - 1] in s.base;
    }
  }

  /**
    * What the watcher can check at its commit, for an external sender and a stored tip still in place:
    * committing the negative verdict keeps every scanned log's row live iff the verdict read again now is
    * negative, or names a block above the cursor, which the scanner has yet to reach.
    */
  lemma WatcherCanTell(s: State, cfg: Settings)
    requires DC.Inv(s) && Complete(s) && Traced(s) && Capped(s) && !TipMoved(s) && StaleAbsent(s)
    requires s.rows[s.watch.id].sender !in s.addresses && Enabled(s, cfg, WatchCommit)
    ensures var v := VerdictNow(s, s.watch.id);
            RowsComplete(Next(s, cfg, WatchCommit)) <==> v.Absent? || v.number > s.cursor
  {
    var v := VerdictNow(s, s.watch.id);
    RowsIffVerdictStillTrue(s, cfg);
    NotScannedIff(s);
    if v.Present? {
      NamedIsCanonical(s, s.watch.id);
      ScannedIffBelow(s, v.hash);
    }
  }

  /** The hypotheses about the state hold in every careful run whose batch is at least the safety margin. */
  lemma {:induction false} RunKeepsAll(s: State, cfg: Settings, steps: seq<Step>)
    requires DC.Inv(s) && Complete(s) && Traced(s) && Capped(s) && cfg.batch >= cfg.safety
    requires ValidRun(s, cfg, steps) && CarefulRun(s, cfg, steps)
    ensures var t := Run(s, cfg, steps); DC.Inv(t) && Complete(t) && Traced(t) && Capped(t)
    decreases |steps|
  {
    if steps != [] {
      DC.StepKeeps(s, cfg, steps[0]);
      StepKeepsComplete(s, cfg, steps[0]);
      StepKeepsTraced(s, cfg, steps[0]);
      StepKeepsCapped(s, cfg, steps[0]);
      RunKeepsAll(Next(s, cfg, steps[0]), cfg, steps[1..]);
    }
  }

  /** Over runs: after any careful run, a pending negative verdict is safe to commit iff re-reading says so. */
  lemma RereadDecides(cfg: Settings, steps: seq<Step>)
    requires ValidRun(EMPTY, cfg, steps) && CarefulRun(EMPTY, cfg, steps) && cfg.batch >= cfg.safety
    requires var s := Run(EMPTY, cfg, steps);
             && s.watch.Judged? && s.watch.verdict.Absent? && !TipMoved(s)
             && (s.watch.id in s.rows ==> s.rows[s.watch.id].sender !in s.addresses)
    ensures var s := Run(EMPTY, cfg, steps);
            && Enabled(s, cfg, WatchCommit)
            && var v := VerdictNow(s, s.watch.id);
               RowsComplete(Next(s, cfg, WatchCommit)) <==> v.Absent? || v.number > s.cursor
  {
    DC.EmptyInv();
    RunKeepsAll(EMPTY, cfg, steps);
    WatcherCanTell(Run(EMPTY, cfg, steps), cfg);
  }
}
