/**
  * What the scanner remembers of the chain: history that holds in every run, however its reads are torn.
  */
module DepositHistory {
  import opened Events
  import opened ChainModel
  import opened Deposits

  predicate Scanned(scans: set<ScanRecord>, h: Hash)
  {
    exists r :: r in scans && r.hash == h
  }

  // ---- history invariant (holds in every run) ----

  /** `p` is a stretch of some path starting at height `first`. */
  ghost predicate Stretch(p: seq<Block>, first: nat)
  {
    && (forall k {:trigger p[k].number} :: 0 <= k < |p| ==> p[k].number == first + k)
    && (forall k {:trigger FollowsOn(p, k)} :: 0 < k < |p| ==> FollowsOn(p, k))
  }

  ghost predicate FollowsOn(p: seq<Block>, k: nat)
    requires 0 < k < |p|
  {
    p[k].parent == Some(p[k - 1].hash)
  }

  /** A scanned canonical block at or below the cursor sits in `base`. */
  ghost predicate BaseHolds(s: State)
  {
    forall h {:trigger OnPath(s.chain, h)} ::
      OnPath(s.chain, h) && Scanned(s.scans, h) && s.chain.blocks[h].number <= s.cursor ==>
      HashAt(s.base, s.chain.blocks[h].number) == Some(h)
  }

  ghost predicate RangeOk(s: State, first: nat, last: nat)
  {
    1 <= first <= last && first <= s.cursor + 1
  }

  ghost predicate BatchStored(blocks: map<Hash, Block>, first: nat, last: nat, batch: seq<Block>)
  {
    Stored(batch, blocks) && Stretch(batch, first) && |batch| <= last - first + 1
  }

  ghost predicate InBatch(batch: seq<Block>, first: nat, b: Block)
  {
    first <= b.number < first + |batch| && batch[b.number - first] == b
  }

  /** Every canonical block of the range that was scanned before is in the batch. */
  ghost predicate BatchCatches(s: State, first: nat, last: nat, batch: seq<Block>)
  {
    forall h {:trigger OnPath(s.chain, h)} | h in s.chain.blocks && Scanned(s.scans, h) && OnPath(s.chain, h) ::
      first <= s.chain.blocks[h].number <= last ==> InBatch(batch, first, s.chain.blocks[h])
  }

  ghost predicate ViewStored(blocks: map<Hash, Block>, last: nat, view: seq<Block>)
  {
    Linked(view) && Stored(view, blocks) && |view| <= last
  }

  /** Every canonical block up to the range's end that was ever scanned is in the view. */
  ghost predicate ViewCatches(s: State, first: nat, last: nat, batch: seq<Block>, view: seq<Block>)
  {
    forall h {:trigger OnPath(s.chain, h)} | OnPath(s.chain, h) && s.chain.blocks[h].number <= last ::
      Scanned(s.scans, h) || InBatch(batch, first, s.chain.blocks[h]) ==>
        HashAt(view, s.chain.blocks[h].number) == Some(h)
  }

  /** A block of the view that was scanned by an earlier tick is in the old base, and in the batch if in range. */
  ghost predicate ViewTraces(
      scans: set<ScanRecord>, cursor: nat, base: seq<Block>, first: nat, batch: seq<Block>, view: seq<Block>)
  {
    forall i {:trigger Scanned(scans, view[i].hash)} | 0 <= i < |view| && Scanned(scans, view[i].hash) ::
      && (i < cursor ==> i < |base| && base[i] == view[i])
      && (first - 1 <= i ==> InBatch(batch, first, view[i]))
  }

  ghost predicate History(s: State)
  {
    && ChainOk(s.chain)
    && Linked(s.base) && Stored(s.base, s.chain.blocks) && |s.base| <= s.cursor
    && s.tip == HashAt(s.base, s.cursor)
    && (forall r :: r in s.scans ==> r.hash in s.chain.blocks)
    && BaseHolds(s)
    && match s.scan
       case Ranged(first, last) => RangeOk(s, first, last)
       case LogsRead(first, last, _, batch) =>
         && RangeOk(s, first, last)
         && BatchStored(s.chain.blocks, first, last, batch)
         && BatchCatches(s, first, last, batch)
       case TipRead(first, last, _, batch, view) =>
         && RangeOk(s, first, last)
         && BatchStored(s.chain.blocks, first, last, batch)
         && ViewStored(s.chain.blocks, last, view)
         && ViewCatches(s, first, last, batch, view)
         && ViewTraces(s.scans, s.cursor, s.base, first, batch, view)
       case _ => true
  }

  lemma ChainKeepsHistory(s: State, cfg: Settings, step: NodeStep)
    requires History(s) && NodeEnabled(s.chain, step)
    ensures History(Next(s, cfg, ChainStep(step)))
  {
    StepOk(s.chain, step);
    forall h | h in s.chain.blocks
      ensures var d := NodeNext(s.chain, step);
              h in d.blocks && d.blocks[h] == s.chain.blocks[h] && (OnPath(d, h) ==> OnPath(s.chain, h))
    {
      NeverReturns(s.chain, step, h);
    }
    forall h | Scanned(s.scans, h) ensures h in s.chain.blocks {
    }
    if s.scan.TipRead? {
      ChainKeepsCatch(s, NodeNext(s.chain, step), s.scan.first, s.scan.last, s.scan.batch, s.scan.view);
    }
  }

  lemma ChainKeepsCatch(s: State, d: Chain, first: nat, last: nat, batch: seq<Block>, view: seq<Block>)
    requires ViewCatches(s, first, last, batch, view) && BatchStored(s.chain.blocks, first, last, batch)
    requires forall h :: h in d.blocks ==> d.blocks[h].hash == h
    requires forall h :: h in s.chain.blocks ==>
               h in d.blocks && d.blocks[h] == s.chain.blocks[h] && (OnPath(d, h) ==> OnPath(s.chain, h))
    requires forall h :: Scanned(s.scans, h) ==> h in s.chain.blocks
    ensures ViewCatches(s.(chain := d), first, last, batch, view)
  {
    forall h | h in d.blocks && OnPath(d, h) && d.blocks[h].number <= last
               && (Scanned(s.scans, h) || InBatch(batch, first, d.blocks[h]))
      ensures HashAt(view, d.blocks[h].number) == Some(h)
    {
      if InBatch(batch, first, d.blocks[h]) {
        assert batch[d.blocks[h].number - first].hash == h;
      }
      assert h in s.chain.blocks;
    }
  }

  lemma BatchIsStored(path: seq<Block>, blocks: map<Hash, Block>, first: nat, last: nat)
    requires Linked(path) && Stored(path, blocks) && 1 <= first <= last
    ensures BatchStored(blocks, first, last, Blocks(path, first, last))
  {
    var batch := Blocks(path, first, last);
    if first - 1 <= |path| {
      forall k | 0 <= k < |batch| ensures batch[k] == path[first - 1 + k] && batch[k].number == first + k {
        assert path[first - 1 + k].number == first + k;
      }
      forall k | 0 < k < |batch| ensures FollowsOn(batch, k) {
        assert ParentAt(path, first - 1 + k);
      }
    }
  }

  lemma BatchHasCanonical(c: Chain, first: nat, last: nat, h: Hash)
    requires Stored(c.path, c.blocks) && 1 <= first <= last && OnPath(c, h) && first <= c.blocks[h].number <= last
    ensures InBatch(Blocks(c.path, first, last), first, c.blocks[h])
  {
    var n := c.blocks[h].number;
    assert c.blocks[c.path[n - 1].hash] == c.path[n - 1];
    BatchIndex(c.path, first, last, n);
  }

  lemma BatchIndex(path: seq<Block>, first: nat, last: nat, n: nat)
    requires 1 <= first <= n <= last && n <= |path|
    ensures n - first < |Blocks(path, first, last)| && Blocks(path, first, last)[n - first] == path[n - 1]
  {
  }

  /** Reading the logs: every canonical block of the range is in the batch. */
  lemma LogsKeepHistory(s: State, cfg: Settings)
    requires History(s) && Enabled(s, cfg, ScanLogs)
    ensures History(Next(s, cfg, ScanLogs))
  {
    var first, last := s.scan.first, s.scan.last;
    var batch := Blocks(s.chain.path, first, last);
    BatchIsStored(s.chain.path, s.chain.blocks, first, last);
    assert BatchCatches(s, first, last, batch) by {
      forall h | h in s.chain.blocks && OnPath(s.chain, h) && first <= s.chain.blocks[h].number <= last
        ensures InBatch(batch, first, s.chain.blocks[h])
      {
        BatchHasCanonical(s.chain, first, last, h);
      }
    }
  }

  /** Reading the tip: every canonical block up to the range's end is in the view. */
  lemma TipKeepsHistory(s: State, cfg: Settings)
    requires History(s) && Enabled(s, cfg, ScanTip)
    ensures History(Next(s, cfg, ScanTip))
  {
    var first, last, batch := s.scan.first, s.scan.last, s.scan.batch;
    var path := s.chain.path;
    var view := path[..Min(last, |path|)];
    forall i | 0 <= i < |view| ensures ParentAt(view, i) {
      assert ParentAt(path, i);
    }
    forall i | 0 <= i < |view| && Scanned(s.scans, view[i].hash)
      ensures (i < s.cursor ==> i < |s.base| && s.base[i] == view[i])
      ensures (first - 1 <= i ==> InBatch(batch, first, view[i]))
    {
      var h := path[i].hash;
      assert s.chain.blocks[h] == path[i] && path[i].number == i + 1;
      assert OnPath(s.chain, h);
      if i < s.cursor {
        assert HashAt(s.base, i + 1) == Some(h);
        assert s.chain.blocks[s.base[i].hash] == s.base[i];
      }
    }
  }

  lemma {:induction false} UpsertAllTables(s: State, es: seq<LogEntry>)
    ensures UpsertAll(s, es) == s.(rows := UpsertAll(s, es).rows, log := UpsertAll(s, es).log)
  {
    if es != [] {
      UpsertAllTables(s, es[..|es| - 1]);
    }
  }

  lemma RecordsOfBatch(scans: set<ScanRecord>, batch: seq<Block>, watched: set<Addr>, h: Hash)
    ensures Scanned(scans + set b | b in batch :: ScanRecord(b.hash, watched), h) <==>
            Scanned(scans, h) || exists b :: b in batch && b.hash == h
  {
    var more := scans + set b | b in batch :: ScanRecord(b.hash, watched);
    if Scanned(scans, h) {
      var r :| r in scans && r.hash == h;
      assert r in more;
    }
    if b :| b in batch && b.hash == h {
      assert ScanRecord(b.hash, watched) in more;
    }
  }

  lemma StoredInBatch(blocks: map<Hash, Block>, batch: seq<Block>, first: nat, h: Hash)
    requires Stored(batch, blocks) && Stretch(batch, first) && h in blocks && blocks[h].hash == h
    ensures (exists b :: b in batch && b.hash == h) <==> InBatch(batch, first, blocks[h])
  {
    if b :| b in batch && b.hash == h {
      var k :| 0 <= k < |batch| && batch[k] == b;
      assert blocks[h] == b && b.number == first + k;
    }
    if InBatch(batch, first, blocks[h]) {
      assert batch[blocks[h].number - first] in batch;
    }
  }

  lemma CommitKeepsHistory(s: State, cfg: Settings)
    requires History(s) && s.scan.TipRead?
    ensures History(Next(s, cfg, ScanCommit))
  {
    var first, last, batch, view := s.scan.first, s.scan.last, s.scan.batch, s.scan.view;
    UpsertAllTables(s, Entries(batch, s.scan.watched));
    var s1 := Next(s, cfg, ScanCommit);
    forall h | h in s.chain.blocks && Scanned(s1.scans, h) && OnPath(s.chain, h) && s.chain.blocks[h].number <= last
      ensures HashAt(view, s.chain.blocks[h].number) == Some(h)
    {
      RecordsOfBatch(s.scans, batch, s.scan.watched, h);
      StoredInBatch(s.chain.blocks, batch, first, h);
    }
    forall r | r in s1.scans ensures r.hash in s.chain.blocks {
      if r !in s.scans {
        var b :| b in batch && r == ScanRecord(b.hash, s.scan.watched);
      }
    }
  }

  lemma StepKeepsHistory(s: State, cfg: Settings, step: Step)
    requires History(s) && Enabled(s, cfg, step)
    ensures History(Next(s, cfg, step))
  {
    match step
    case ChainStep(c) => ChainKeepsHistory(s, cfg, c);
    case ScanLogs => LogsKeepHistory(s, cfg);
    case ScanTip => TipKeepsHistory(s, cfg);
    case ScanCommit => CommitKeepsHistory(s, cfg);
    case _ => SameScan(s, Next(s, cfg, step));
  }

  lemma SameScan(s: State, t: State)
    requires History(s) && t.chain == s.chain && t.base == s.base && t.cursor == s.cursor && t.tip == s.tip
    requires t.scans == s.scans
    requires || t.scan == s.scan || t.scan.ScanIdle? || t.scan.HeadRead?
             || (t.scan.Ranged? && RangeOk(t, t.scan.first, t.scan.last))
    ensures History(t)
  {
  }
}
