/**
  * When the scanner misses nothing.
  *
  * Coverage: every block up to the cursor, on the chain whose tip hash the cursor stores, was scanned.
  * A tick preserves coverage exactly when its reads fit together (`TickReadsAgree`).
  * Completeness: every external log in a scanned canonical block has a live row. A negative verdict
  * preserves it exactly when it is still true at commit (`VerdictStillTrue`).
  */
module DepositCompleteness {
  import opened Events
  import opened ChainModel
  import opened Deposits
  import opened DepositHistory

  // ---- coverage: exactly when a tick's reads agree ----

  /** The blocks behind the stored tip hash, from genesis to the cursor, were all scanned. */
  ghost predicate Covered(s: State)
  {
    |s.base| == s.cursor && forall b :: b in s.base ==> Scanned(s.scans, b.hash)
  }

  /**
    * The tip hash names the very block whose logs were read last, and the block under the range is
    * the one the previous tick recorded there. A caller can check both with two hash comparisons.
    */
  ghost predicate TickReadsAgree(s: State)
    requires s.scan.TipRead?
  {
    Agree(s.base, s.scan.first, s.scan.last, s.scan.batch, s.scan.view)
  }

  /** Two stretches of equal length that end in the same block are equal. */
  lemma {:induction false} StretchByLast(p: seq<Block>, q: seq<Block>, first: nat, blocks: map<Hash, Block>)
    requires Stretch(p, first) && Stretch(q, first) && Stored(p, blocks) && Stored(q, blocks)
    requires |p| == |q| > 0 && p[|p| - 1].hash == q[|q| - 1].hash
    ensures p == q
  {
    var n := |p| - 1;
    assert p[n] == q[n];
    if n > 0 {
      assert FollowsOn(p, n) && FollowsOn(q, n);
      FrontIsStretch(p, first);
      FrontIsStretch(q, first);
      StretchByLast(p[..n], q[..n], first, blocks);
      assert p == p[..n] + [p[n]] && q == q[..n] + [q[n]];
    }
  }

  lemma FrontIsStretch(p: seq<Block>, first: nat)
    requires Stretch(p, first) && p != []
    ensures Stretch(p[..|p| - 1], first)
  {
    var front := p[..|p| - 1];
    forall k | 0 < k < |front| ensures FollowsOn(front, k) {
      assert FollowsOn(p, k);
    }
  }

  lemma ViewIsStretch(view: seq<Block>, first: nat)
    requires Linked(view) && 1 <= first <= |view|
    ensures Stretch(view[first - 1..], first)
  {
    var p := view[first - 1..];
    forall k | 0 < k < |p| ensures FollowsOn(p, k) {
      assert ParentAt(view, first - 1 + k);
    }
  }

  /** The same two comparisons on the values themselves. */
  ghost predicate Agree(base: seq<Block>, first: nat, last: nat, batch: seq<Block>, view: seq<Block>)
  {
    && |batch| == last - first + 1 > 0
    && HashAt(view, last) == Some(batch[|batch| - 1].hash)
    && (first > 1 ==> HashAt(base, first - 1).Some? && HashAt(view, first - 1) == HashAt(base, first - 1))
  }

  /** If the reads agree, the view is the old base up to the range followed by the batch. */
  lemma AgreeingReadsGlue(
      blocks: map<Hash, Block>, base: seq<Block>, first: nat, last: nat, batch: seq<Block>, view: seq<Block>)
    requires 1 <= first && Agree(base, first, last, batch, view)
    requires Linked(base) && Stored(base, blocks) && BatchStored(blocks, first, last, batch)
    requires ViewStored(blocks, last, view)
    ensures first - 1 <= |base| && first - 1 <= |view| == last
    ensures view[..first - 1] == base[..first - 1] && view[first - 1..] == batch
  {
    if first > 1 {
      HashFixesPrefix(view, base, blocks, first - 1);
    }
    TopIsBatch(blocks, first, last, batch, view);
  }

  lemma TopIsBatch(blocks: map<Hash, Block>, first: nat, last: nat, batch: seq<Block>, view: seq<Block>)
    requires 1 <= first && |batch| == last - first + 1 > 0 && HashAt(view, last) == Some(batch[|batch| - 1].hash)
    requires BatchStored(blocks, first, last, batch) && ViewStored(blocks, last, view)
    ensures first - 1 <= |view| && view[first - 1..] == batch
  {
    ViewIsStretch(view, first);
    var top := view[first - 1..];
    assert Stored(top, blocks);
    assert top[|top| - 1] == view[last - 1];
    StretchByLast(top, batch, first, blocks);
  }

  lemma GluedViewIsScanned(
      scans: set<ScanRecord>, watched: set<Addr>, base: seq<Block>, first: nat, batch: seq<Block>, view: seq<Block>,
      b: Block)
    requires 1 <= first && first - 1 <= |base| && first - 1 <= |view|
    requires view[..first - 1] == base[..first - 1] && view[first - 1..] == batch
    requires forall x :: x in base ==> Scanned(scans, x.hash)
    requires b in view
    ensures Scanned(scans + set x | x in batch :: ScanRecord(x.hash, watched), b.hash)
  {
    RecordsOfBatch(scans, batch, watched, b.hash);
    var i :| 0 <= i < |view| && view[i] == b;
    if i < first - 1 {
      assert b == view[..first - 1][i] == base[i];
    } else {
      assert b == view[first - 1..][i - (first - 1)];
    }
  }

  lemma ScannedViewAgrees(
      blocks: map<Hash, Block>, scans: set<ScanRecord>, watched: set<Addr>, cursor: nat, base: seq<Block>,
      first: nat, last: nat, batch: seq<Block>, view: seq<Block>)
    requires 1 <= first <= last && first <= cursor + 1 && |view| == last
    requires BatchStored(blocks, first, last, batch) && ViewStored(blocks, last, view)
    requires ViewTraces(scans, cursor, base, first, batch, view)
    requires forall h :: h in blocks ==> blocks[h].hash == h
    requires forall b :: b in view ==> Scanned(scans + set x | x in batch :: ScanRecord(x.hash, watched), b.hash)
    ensures Agree(base, first, last, batch, view)
  {
    ScannedOrInBatch(blocks, scans, watched, first, last, batch, view, last - 1);
    LastInBatch(scans, cursor, base, first, last, batch, view);
    if first > 1 {
      ScannedOrInBatch(blocks, scans, watched, first, last, batch, view, first - 2);
      FloorInBase(scans, cursor, base, first, last, batch, view);
    }
  }

  lemma LastInBatch(
      scans: set<ScanRecord>, cursor: nat, base: seq<Block>, first: nat, last: nat, batch: seq<Block>, view: seq<Block>)
    requires 1 <= first <= last && |view| == last && Linked(view)
    requires ViewTraces(scans, cursor, base, first, batch, view) && |batch| <= last - first + 1
    requires Scanned(scans, view[last - 1].hash) || InBatch(batch, first, view[last - 1])
    ensures |batch| == last - first + 1 && batch[|batch| - 1] == view[last - 1]
  {
    assert view[last - 1].number == last;
    assert InBatch(batch, first, view[last - 1]);
  }

  lemma FloorInBase(
      scans: set<ScanRecord>, cursor: nat, base: seq<Block>, first: nat, last: nat, batch: seq<Block>, view: seq<Block>)
    requires 1 < first <= last && |view| == last && first <= cursor + 1 && Linked(view)
    requires ViewTraces(scans, cursor, base, first, batch, view)
    requires Scanned(scans, view[first - 2].hash) || InBatch(batch, first, view[first - 2])
    ensures first - 2 < |base| && base[first - 2] == view[first - 2]
  {
    assert view[first - 2].number == first - 1;
  }

  lemma ScannedOrInBatch(blocks: map<Hash, Block>, scans: set<ScanRecord>, watched: set<Addr>,
                         first: nat, last: nat, batch: seq<Block>, view: seq<Block>, i: nat)
    requires BatchStored(blocks, first, last, batch) && ViewStored(blocks, last, view) && i < |view|
    requires forall h :: h in blocks ==> blocks[h].hash == h
    requires forall b :: b in view ==> Scanned(scans + set x | x in batch :: ScanRecord(x.hash, watched), b.hash)
    ensures Scanned(scans, view[i].hash) || InBatch(batch, first, view[i])
  {
    assert view[i] in view;
    RecordsOfBatch(scans, batch, watched, view[i].hash);
    StoredInBatch(blocks, batch, first, view[i].hash);
  }

  /**
    * A tick that started from coverage ends in coverage if and only if its reads agree: whatever the
    * chain did between the four reads and the commit.
    */
  lemma CoverageIffReadsAgree(s: State, cfg: Settings)
    requires History(s) && Covered(s) && s.scan.TipRead?
    ensures Covered(Next(s, cfg, ScanCommit)) <==> TickReadsAgree(s)
  {
    var first, last, batch, view := s.scan.first, s.scan.last, s.scan.batch, s.scan.view;
    UpsertAllTables(s, Entries(batch, s.scan.watched));
    var s1 := Next(s, cfg, ScanCommit);
    if TickReadsAgree(s) {
      AgreeingReadsGlue(s.chain.blocks, s.base, first, last, batch, view);
      forall b | b in view ensures Scanned(s1.scans, b.hash) {
        GluedViewIsScanned(s.scans, s.scan.watched, s.base, first, batch, view, b);
      }
    }
    if Covered(s1) {
      ScannedViewAgrees(s.chain.blocks, s.scans, s.scan.watched, s.cursor, s.base, first, last, batch, view);
    }
  }

  // ---- rows: exactly when a negative verdict is still true ----

  predicate IsExternal(x: Included, id: DepositId, watched: set<Addr>)
  {
    && x.tx == id.tx && x.logIndex == Some(id.logIndex)
    && x.info.recipient in watched && x.info.sender !in watched
  }

  predicate ExternalLog(b: Block, id: DepositId, watched: set<Addr>)
  {
    exists x :: x in b.txs && IsExternal(x, id, watched)
  }

  /** Every external log of every scanned canonical block has a row that is not REORGED. */
  ghost predicate RowsComplete(s: State)
  {
    forall r, id :: r in s.scans && OnPath(s.chain, r.hash) && ExternalLog(s.chain.blocks[r.hash], id, r.watched) ==>
      Live(s, id)
  }

  /** The deposit judged absent is not, by now, in a block that was scanned and is canonical. */
  ghost predicate VerdictStillTrue(s: State)
    requires s.watch.Judged?
  {
    s.watch.verdict.Absent? ==>
      forall r :: r in s.scans && OnPath(s.chain, r.hash) ==>
        !ExternalLog(s.chain.blocks[r.hash], s.watch.id, r.watched)
  }

  lemma {:induction false} UpsertAllLive(s: State, es: seq<LogEntry>)
    ensures forall id :: Live(s, id) ==> Live(UpsertAll(s, es), id)
    ensures forall e :: e in es ==> Live(UpsertAll(s, es), e.id)
  {
    if es != [] {
      var last := |es| - 1;
      UpsertAllLive(s, es[..last]);
      assert es == es[..last] + [es[last]];
    }
  }

  lemma {:induction false} ExternalListed(b: Block, txs: seq<Included>, watched: set<Addr>, x: Included)
    requires x in txs && x.logIndex.Some? && x.info.recipient in watched && x.info.sender !in watched
    ensures exists e :: e in External(b, txs, watched) && e.id == DepositId(x.tx, x.logIndex.value)
  {
    var last := |txs| - 1;
    var y := txs[last];
    var tail := if y.logIndex.Some? && y.info.recipient in watched && y.info.sender !in watched
                then [LogOf(b, y, y.logIndex.value)] else [];
    assert External(b, txs, watched) == External(b, txs[..last], watched) + tail;
    if x == txs[last] {
      assert tail[0] in External(b, txs, watched);
    } else {
      assert txs == txs[..last] + [txs[last]];
      ExternalListed(b, txs[..last], watched, x);
    }
  }

  lemma {:induction false} EntriesListed(batch: seq<Block>, watched: set<Addr>, b: Block, id: DepositId)
    requires b in batch && ExternalLog(b, id, watched)
    ensures exists e :: e in Entries(batch, watched) && e.id == id
  {
    var last := |batch| - 1;
    if b == batch[last] {
      var x :| x in b.txs && IsExternal(x, id, watched);
      ExternalListed(b, b.txs, watched, x);
    } else {
      assert batch == batch[..last] + [batch[last]];
      EntriesListed(batch[..last], watched, b, id);
    }
  }

  lemma CommitKeepsRows(s: State, cfg: Settings)
    requires History(s) && RowsComplete(s) && s.scan.TipRead?
    ensures RowsComplete(Next(s, cfg, ScanCommit))
  {
    var batch, watched := s.scan.batch, s.scan.watched;
    var es := Entries(batch, watched);
    UpsertAllTables(s, es);
    UpsertAllLive(s, es);
    var s1 := Next(s, cfg, ScanCommit);
    forall r, id | r in s1.scans && OnPath(s1.chain, r.hash) && ExternalLog(s1.chain.blocks[r.hash], id, r.watched)
      ensures Live(s1, id)
    {
      if r in s.scans {
        assert Live(s, id);
      } else {
        var b :| b in batch && r == ScanRecord(b.hash, watched);
        var k :| 0 <= k < |batch| && batch[k] == b;
        assert s.chain.blocks[r.hash] == b;
        EntriesListed(batch, watched, b, id);
      }
    }
  }

  lemma ChainKeepsRows(s: State, cfg: Settings, step: NodeStep)
    requires History(s) && RowsComplete(s) && NodeEnabled(s.chain, step)
    ensures RowsComplete(Next(s, cfg, ChainStep(step)))
  {
    forall r | r in s.scans
      ensures NodeNext(s.chain, step).blocks[r.hash] == s.chain.blocks[r.hash]
              && (OnPath(NodeNext(s.chain, step), r.hash) ==> OnPath(s.chain, r.hash))
    {
      NeverReturns(s.chain, step, r.hash);
    }
    var s1 := Next(s, cfg, ChainStep(step));
    forall r, id | r in s1.scans && OnPath(s1.chain, r.hash) && ExternalLog(s1.chain.blocks[r.hash], id, r.watched)
      ensures Live(s1, id)
    {
      assert Live(s, id);
    }
  }

  /** Committing a watcher tick keeps every scanned log's row live if and only if its verdict is still true. */
  lemma RowsIffVerdictStillTrue(s: State, cfg: Settings)
    requires RowsComplete(s) && Enabled(s, cfg, WatchCommit)
    ensures RowsComplete(Next(s, cfg, WatchCommit)) <==> VerdictStillTrue(s)
  {
    var s1 := Next(s, cfg, WatchCommit);
    forall id | id != s.watch.id ensures Live(s1, id) == Live(s, id) {
    }
    if s.watch.verdict.Absent? {
      assert !Live(s1, s.watch.id);
    } else {
      assert Live(s, s.watch.id) ==> Live(s1, s.watch.id);
    }
  }

  // ---- completeness over runs ----

  ghost predicate Complete(s: State)
  {
    History(s) && Covered(s) && RowsComplete(s)
  }

  /** Steps that may not tear a tick or act on a stale verdict; everything else is unrestricted. */
  ghost predicate Careful(s: State, step: Step)
  {
    && (step.ScanCommit? && s.scan.TipRead? ==> TickReadsAgree(s))
    && (step.WatchCommit? && s.watch.Judged? ==> VerdictStillTrue(s))
  }

  ghost predicate CarefulRun(s: State, cfg: Settings, steps: seq<Step>)
    requires ValidRun(s, cfg, steps)
    decreases |steps|
  {
    steps == [] || (Careful(s, steps[0]) && CarefulRun(Next(s, cfg, steps[0]), cfg, steps[1..]))
  }

  lemma StepKeepsComplete(s: State, cfg: Settings, step: Step)
    requires Complete(s) && Enabled(s, cfg, step) && Careful(s, step)
    ensures Complete(Next(s, cfg, step))
  {
    StepKeepsHistory(s, cfg, step);
    StepKeepsCovered(s, cfg, step);
    match step
    case ChainStep(c) => ChainKeepsRows(s, cfg, c);
    case ScanCommit => CommitKeepsRows(s, cfg);
    case WatchCommit => RowsIffVerdictStillTrue(s, cfg);
    case _ => SameRows(s, Next(s, cfg, step));
  }

  lemma StepKeepsCovered(s: State, cfg: Settings, step: Step)
    requires History(s) && Covered(s) && Enabled(s, cfg, step) && Careful(s, step)
    ensures Covered(Next(s, cfg, step))
  {
    if step.ScanCommit? {
      CoverageIffReadsAgree(s, cfg);
    } else {
      var t := Next(s, cfg, step);
      assert t.base == s.base && t.scans == s.scans && t.cursor == s.cursor;
    }
  }

  lemma SameRows(s: State, t: State)
    requires RowsComplete(s) && t.chain == s.chain && t.rows == s.rows && t.scans == s.scans
    ensures RowsComplete(t)
  {
    forall r, id | r in t.scans && OnPath(t.chain, r.hash) && ExternalLog(t.chain.blocks[r.hash], id, r.watched)
      ensures Live(t, id)
    {
      assert Live(s, id);
    }
  }

  lemma {:induction false} RunKeepsComplete(s: State, cfg: Settings, steps: seq<Step>)
    requires Complete(s) && ValidRun(s, cfg, steps) && CarefulRun(s, cfg, steps)
    ensures Complete(Run(s, cfg, steps))
    decreases |steps|
  {
    if steps != [] {
      StepKeepsComplete(s, cfg, steps[0]);
      RunKeepsComplete(Next(s, cfg, steps[0]), cfg, steps[1..]);
    }
  }

  /**
    * Scanner completeness. In every careful run, whenever the canonical hash at the cursor is the
    * stored one, every canonical block up to the cursor was scanned, and every log in it that was
    * external for the addresses watched at that scan has a deposits row that is not REORGED.
    */
  lemma ScannerMissesNothing(cfg: Settings, steps: seq<Step>, n: nat, id: DepositId)
    requires ValidRun(EMPTY, cfg, steps) && CarefulRun(EMPTY, cfg, steps)
    requires var s := Run(EMPTY, cfg, steps); HashAt(s.chain.path, s.cursor) == s.tip && n < s.cursor
    ensures var s := Run(EMPTY, cfg, steps);
            && s.cursor <= |s.chain.path|
            && Scanned(s.scans, s.chain.path[n].hash)
            && forall r :: r in s.scans && r.hash == s.chain.path[n].hash ==>
                 ExternalLog(s.chain.path[n], id, r.watched) ==> Live(s, id)
  {
    RunKeepsComplete(EMPTY, cfg, steps);
    CompleteBelowCursor(Run(EMPTY, cfg, steps), n, id);
  }


  lemma CompleteBelowCursor(t: State, n: nat, id: DepositId)
    requires Complete(t) && t.tip == HashAt(t.chain.path, t.cursor)
    ensures t.cursor <= |t.chain.path|
    ensures n < t.cursor ==>
              && Scanned(t.scans, t.chain.path[n].hash)
              && forall r :: r in t.scans && r.hash == t.chain.path[n].hash ==>
                   ExternalLog(t.chain.path[n], id, r.watched) ==> Live(t, id)
  {
    UnmovedTip(t);
    if n < t.cursor {
      assert t.chain.path[n] == t.chain.path[..t.cursor][n] == t.base[n];
      assert t.base[n] in t.base;
      LiveAt(t.chain, t.scans, t, n, id);
    }
  }

  lemma LiveAt(c: Chain, scans: set<ScanRecord>, t: State, n: nat, id: DepositId)
    requires c == t.chain && scans == t.scans && ChainOk(c) && RowsComplete(t) && n < |c.path|
    ensures forall r :: r in scans && r.hash == c.path[n].hash && ExternalLog(c.path[n], id, r.watched) ==> Live(t, id)
  {
    var b := c.path[n];
    assert c.blocks[b.hash] == b && b.number == n + 1;
    assert OnPath(c, b.hash);
  }

  lemma UnmovedTip(s: State)
    requires History(s) && Covered(s) && !TipMoved(s)
    ensures s.cursor <= |s.chain.path| && s.chain.path[..s.cursor] == s.base[..s.cursor]
  {
    SameTip(s.chain.path, s.base, s.chain.blocks, s.cursor);
  }

  lemma SameTip(path: seq<Block>, base: seq<Block>, blocks: map<Hash, Block>, n: nat)
    requires Linked(path) && Stored(path, blocks) && Linked(base) && Stored(base, blocks)
    requires |base| == n && (HashAt(base, n).Some? ==> HashAt(path, n) == HashAt(base, n))
    ensures n <= |path| && path[..n] == base[..n]
  {
    if n > 0 {
      HashFixesPrefix(path, base, blocks, n);
    }
  }
}
