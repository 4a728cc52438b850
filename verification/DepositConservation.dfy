/** Every confirmation is emitted once, and withdrawn once if its deposit leaves the chain. */
module DepositConservation {
  import opened Events
  import opened Sums
  import opened ChainModel
  import opened Deposits

  /** Block `h` is known and contains the log of deposit `id`. */
  ghost predicate Knows(c: Chain, id: DepositId, h: Hash)
  {
    h in c.blocks && HasLog(c.blocks[h], id)
  }

  function NetOf(id: DepositId): Event -> int
  {
    (e: Event) =>
      if e.DepositConfirmed? && e.dep == id then 1
      else if e.DepositReorged? && e.dep == id && e.wasConfirmed then -1
      else 0
  }

  function CreditedNow(s: State, id: DepositId): int
  {
    if id in s.rows && s.rows[id].status.Confirmed? then 1 else 0
  }

  // ---- the invariant ----

  ghost predicate RowOk(c: Chain, id: DepositId, row: Row)
  {
    && Knows(c, id, row.hash) && c.blocks[row.hash].number == row.number
    && id.tx in c.submitted && row.amount == c.submitted[id.tx].amount > 0
    && row.sender == c.submitted[id.tx].sender && row.recipient == c.submitted[id.tx].recipient
  }

  /** What an emitted event says about the row it came from. */
  ghost predicate EventOk(s: State, e: Event)
  {
    match e
    case DepositConfirmed(id, block, to, asset, amount) =>
      && id in s.rows && to == s.rows[id].recipient && amount == s.rows[id].amount && asset == CHAIN_ASSET
      && (Orphaned(s.chain, block) || (s.rows[id].status.Confirmed? && s.rows[id].hash == block))
    case DepositReorged(id, block, to, asset, amount, _) =>
      && id in s.rows && to == s.rows[id].recipient && amount == s.rows[id].amount && asset == CHAIN_ASSET
      && Orphaned(s.chain, block)
    case DepositDetected(_, _) => true
    case _ => false
  }

  /** What a watcher tick in progress knows about its deposit. */
  ghost predicate WatchOk(s: State)
  {
    match s.watch
    case WatchIdle => true
    case Moved(id, _, _) => Live(s, id) && Orphaned(s.chain, s.rows[id].hash)
    case Judged(id, _, Absent) => Live(s, id) && Orphaned(s.chain, s.rows[id].hash)
    case Judged(id, _, Present(number, hash)) => CanCommit(s, id, number, hash)
  }

  /** A positive verdict: the block is known, the old one is gone or the same, and its facts are unused. */
  ghost predicate CanCommit(s: State, id: DepositId, number: nat, hash: Hash)
  {
    && Live(s, id)
    && Knows(s.chain, id, hash) && s.chain.blocks[hash].number == number
    && (hash == s.rows[id].hash || Orphaned(s.chain, s.rows[id].hash))
    && (s.rows[id].status.Detected? ==> !Emitted(s.log, ConfirmedId(id, hash)))
    && !Emitted(s.log, ReorgedId(id, hash))
  }

  ghost predicate BatchOk(s: State)
  {
    match s.scan
    case LogsRead(_, _, _, batch) => Stored(batch, s.chain.blocks)
    case TipRead(_, _, _, batch, _) => Stored(batch, s.chain.blocks)
    case _ => true
  }

  ghost predicate ConfirmedNotWithdrawn(s: State)
  {
    forall id :: id in s.rows && s.rows[id].status.Confirmed? ==> !Emitted(s.log, ReorgedId(id, s.rows[id].hash))
  }

  ghost predicate TablesOk(s: State)
  {
    && ChainOk(s.chain)
    && UniqueIds(s.log)
    && (forall id :: id in s.rows ==> RowOk(s.chain, id, s.rows[id]))
    && (forall e :: e in s.log ==> EventOk(s, e))
    && ConfirmedNotWithdrawn(s)
    && (forall id :: Sum(s.log, NetOf(id)) == CreditedNow(s, id))
    && WatchOk(s)
  }

  ghost predicate Inv(s: State)
  {
    TablesOk(s) && BatchOk(s)
  }

  lemma EmptyInv()
    ensures Inv(EMPTY)
  {
  }

  // ---- chain steps ----

  lemma KnowsSurvives(c: Chain, step: NodeStep, id: DepositId, h: Hash)
    requires ChainOk(c) && NodeEnabled(c, step) && Knows(c, id, h)
    ensures Knows(NodeNext(c, step), id, h)
  {
    NeverReturns(c, step, h);
  }

  lemma ChainKeeps(s: State, cfg: Settings, step: NodeStep)
    requires Inv(s) && NodeEnabled(s.chain, step)
    ensures Inv(Next(s, cfg, ChainStep(step)))
  {
    var c, d := s.chain, NodeNext(s.chain, step);
    var s1 := Next(s, cfg, ChainStep(step));
    StepOk(c, step);
    forall h | h in c.blocks
      ensures h in d.blocks && d.blocks[h] == c.blocks[h] && (Orphaned(c, h) ==> Orphaned(d, h))
    {
      NeverReturns(c, step, h);
    }
    forall id | id in s.rows ensures RowOk(d, id, s.rows[id]) {
      KnowsSurvives(c, step, id, s.rows[id].hash);
    }
    FactsSurvive(s, s1);
    if s.watch.Judged? && s.watch.verdict.Present? {
      KnowsSurvives(c, step, s.watch.id, s.watch.verdict.hash);
    }
  }

  lemma FactsSurvive(s: State, t: State)
    requires t == s.(chain := t.chain) && (forall h :: Orphaned(s.chain, h) ==> Orphaned(t.chain, h))
    requires (forall e :: e in s.log ==> EventOk(s, e)) && (forall id :: Sum(s.log, NetOf(id)) == CreditedNow(s, id))
    ensures (forall e :: e in t.log ==> EventOk(t, e)) && (forall id :: Sum(t.log, NetOf(id)) == CreditedNow(t, id))
  {
    forall e | e in t.log ensures EventOk(t, e) {
      assert EventOk(s, e);
    }
    forall id ensures Sum(t.log, NetOf(id)) == CreditedNow(t, id) {
      assert Sum(s.log, NetOf(id)) == CreditedNow(s, id);
    }
  }

  // ---- the scanner ----

  ghost predicate EntryOk(c: Chain, e: LogEntry)
  {
    && Knows(c, e.id, e.hash) && c.blocks[e.hash].number == e.number
    && e.id.tx in c.submitted && e.amount == c.submitted[e.id.tx].amount > 0
    && e.sender == c.submitted[e.id.tx].sender && e.recipient == c.submitted[e.id.tx].recipient
  }

  lemma {:induction false} ExternalOk(c: Chain, b: Block, txs: seq<Included>, watched: set<Addr>)
    requires ChainOk(c) && b.hash in c.blocks && c.blocks[b.hash] == b
    requires forall x :: x in txs ==> x in b.txs
    ensures forall e :: e in External(b, txs, watched) ==>
              EntryOk(c, e) && e.sender !in watched && e.recipient in watched
  {
    if txs != [] {
      ExternalOk(c, b, txs[..|txs| - 1], watched);
      var x := txs[|txs| - 1];
      assert x in b.txs;
      assert FromMempool(b.txs, c.submitted);
    }
  }

  lemma {:induction false} EntriesOk(c: Chain, batch: seq<Block>, watched: set<Addr>)
    requires ChainOk(c) && Stored(batch, c.blocks)
    ensures forall e :: e in Entries(batch, watched) ==> EntryOk(c, e) && e.sender !in watched && e.recipient in watched
  {
    if batch != [] {
      var b := batch[|batch| - 1];
      EntriesOk(c, batch[..|batch| - 1], watched);
      ExternalOk(c, b, b.txs, watched);
    }
  }

  /** An event about detection is counted by no deposit. */
  lemma DetectedIsNeutral(log: seq<Event>, e: Event, id: DepositId)
    requires e.DepositDetected?
    ensures Sum(Enqueue(log, e), NetOf(id)) == Sum(log, NetOf(id))
  {
    SumAppend(log, e, NetOf(id));
  }

  lemma UpsertEvents(s: State, e: LogEntry)
    requires forall x :: x in s.log ==> EventOk(s, x)
    ensures forall x :: x in Upsert(s, e).log ==> EventOk(Upsert(s, e), x)
  {
    var s1 := Upsert(s, e);
    forall x | x in s1.log ensures EventOk(s1, x) {
      assert x == DepositDetected(e.id, e.hash) || EventOk(s, x);
    }
  }

  lemma UpsertNet(s: State, e: LogEntry, id: DepositId)
    requires Sum(s.log, NetOf(id)) == CreditedNow(s, id)
    ensures Sum(Upsert(s, e).log, NetOf(id)) == CreditedNow(Upsert(s, e), id)
  {
    DetectedIsNeutral(s.log, DepositDetected(e.id, e.hash), id);
  }

  lemma UpsertRows(s: State, e: LogEntry)
    requires (forall id :: id in s.rows ==> RowOk(s.chain, id, s.rows[id])) && EntryOk(s.chain, e)
    ensures forall id :: id in Upsert(s, e).rows ==> RowOk(s.chain, id, Upsert(s, e).rows[id])
  {
  }

  lemma UpsertWithdrawsNothing(s: State, e: LogEntry)
    requires ConfirmedNotWithdrawn(s)
    ensures ConfirmedNotWithdrawn(Upsert(s, e))
  {
    EnqueueOnce(s.log, DepositDetected(e.id, e.hash));
  }

  lemma UpsertKeeps(s: State, e: LogEntry)
    requires TablesOk(s) && EntryOk(s.chain, e)
    ensures TablesOk(Upsert(s, e))
  {
    UpsertEvents(s, e);
    UpsertRows(s, e);
    UpsertWithdrawsNothing(s, e);
    EnqueueOnce(s.log, DepositDetected(e.id, e.hash));
    forall id ensures Sum(Upsert(s, e).log, NetOf(id)) == CreditedNow(Upsert(s, e), id) {
      assert Sum(s.log, NetOf(id)) == CreditedNow(s, id);
      UpsertNet(s, e, id);
    }
  }

  lemma {:induction false} UpsertAllKeeps(s: State, es: seq<LogEntry>)
    requires TablesOk(s) && (forall e :: e in es ==> EntryOk(s.chain, e))
    ensures TablesOk(UpsertAll(s, es))
    ensures UpsertAll(s, es) == s.(rows := UpsertAll(s, es).rows, log := UpsertAll(s, es).log)
  {
    if es != [] {
      UpsertAllKeeps(s, es[..|es| - 1]);
      UpsertKeeps(UpsertAll(s, es[..|es| - 1]), es[|es| - 1]);
    }
  }

  lemma ScanCommitKeeps(s: State, cfg: Settings)
    requires Inv(s) && s.scan.TipRead?
    ensures Inv(Next(s, cfg, ScanCommit))
  {
    EntriesOk(s.chain, s.scan.batch, s.scan.watched);
    UpsertAllKeeps(s, Entries(s.scan.batch, s.scan.watched));
    IgnoresCursor(UpsertAll(s, Entries(s.scan.batch, s.scan.watched)), Next(s, cfg, ScanCommit));
  }

  /** The invariant reads only the chain, the rows, the log and the watcher's read. */
  lemma IgnoresCursor(s: State, t: State)
    requires TablesOk(s) && t.chain == s.chain && t.rows == s.rows && t.log == s.log && t.watch == s.watch
    ensures TablesOk(t)
  {
    forall e | e in t.log ensures EventOk(t, e) {
      assert EventOk(s, e);
    }
    forall id ensures Sum(t.log, NetOf(id)) == CreditedNow(t, id) {
      assert Sum(s.log, NetOf(id)) == CreditedNow(s, id);
    }
  }

  // ---- the watcher ----

  lemma CanonicalReceipt(c: Chain, id: DepositId, h: Hash)
    requires ChainOk(c) && Knows(c, id, h) && OnPath(c, h)
    ensures ReceiptIndex(c.path, id.tx) == Some(c.blocks[h].number - 1)
    ensures c.path[c.blocks[h].number - 1] == c.blocks[h]
  {
    var i := c.blocks[h].number - 1;
    assert HasTx(c.blocks[h], id.tx) by {
      var x :| x in c.blocks[h].txs && x.tx == id.tx && x.logIndex == Some(id.logIndex);
    }
    ReceiptIsUnique(c.path, id.tx, i);
  }

  lemma ReceiptTellsOrphan(s: State, id: DepositId)
    requires Inv(s) && Live(s, id)
    ensures var r := ReceiptIndex(s.chain.path, id.tx);
            r.None? || s.chain.path[r.value].hash != s.rows[id].hash ==> Orphaned(s.chain, s.rows[id].hash)
  {
    assert RowOk(s.chain, id, s.rows[id]);
    if OnPath(s.chain, s.rows[id].hash) {
      CanonicalReceipt(s.chain, id, s.rows[id].hash);
    }
  }

  /** A canonical block was never named by a withdrawal, nor by a confirmation that is not in force. */
  lemma CanonicalIsFresh(s: State, id: DepositId, h: Hash)
    requires TablesOk(s) && id in s.rows && OnPath(s.chain, h)
    ensures !Emitted(s.log, ReorgedId(id, h))
    ensures s.rows[id].status.Detected? ==> !Emitted(s.log, ConfirmedId(id, h))
  {
    forall e | e in s.log
      ensures Id(e) != ReorgedId(id, h) && (s.rows[id].status.Detected? ==> Id(e) != ConfirmedId(id, h))
    {
      assert EventOk(s, e);
    }
  }

  lemma WatchReceiptKeeps(s: State, cfg: Settings, id: DepositId, head: nat)
    requires Inv(s) && Enabled(s, cfg, WatchReceipt(id, head))
    ensures Inv(Next(s, cfg, WatchReceipt(id, head)))
  {
    var s1 := Next(s, cfg, WatchReceipt(id, head));
    ReceiptTellsOrphan(s, id);
    ReceiptWatchOk(s, id, head);
    SetWatch(s, s1);
  }

  lemma ReceiptWatchOk(s: State, id: DepositId, head: nat)
    requires TablesOk(s) && Live(s, id)
    requires var r := ReceiptIndex(s.chain.path, id.tx);
             r.None? || s.chain.path[r.value].hash != s.rows[id].hash ==> Orphaned(s.chain, s.rows[id].hash)
    ensures WatchOk(s.(watch := ReadReceipt(s, id, head)))
  {
    var r := ReceiptIndex(s.chain.path, id.tx);
    if r.Some? {
      var b := s.chain.path[r.value];
      assert RowOk(s.chain, id, s.rows[id]);
      assert b.hash in s.chain.blocks && s.chain.blocks[b.hash] == b && b.number == r.value + 1;
      CanonicalIsFresh(s, id, b.hash);
    }
  }

  lemma SetWatch(s: State, t: State)
    requires TablesOk(s) && t == s.(watch := t.watch) && WatchOk(t)
    ensures TablesOk(t)
  {
    forall e | e in t.log ensures EventOk(t, e) {
      assert EventOk(s, e);
    }
    forall id ensures Sum(t.log, NetOf(id)) == CreditedNow(t, id) {
      assert Sum(s.log, NetOf(id)) == CreditedNow(s, id);
    }
  }

  lemma WatchLogsKeeps(s: State, cfg: Settings)
    requires Inv(s) && Enabled(s, cfg, WatchLogs)
    ensures Inv(Next(s, cfg, WatchLogs))
  {
    var s1 := Next(s, cfg, WatchLogs);
    var id, height := s.watch.id, s.watch.height;
    if s1.watch.verdict.Present? {
      var b := s.chain.path[height - 1];
      assert b.hash in s.chain.blocks && s.chain.blocks[b.hash] == b && b.number == height;
      CanonicalIsFresh(s, id, b.hash);
    }
    SetWatch(s, s1);
  }

  lemma AbsentNet(s: State, id: DepositId, d: DepositId)
    requires Live(s, id) && Sum(s.log, NetOf(d)) == CreditedNow(s, d)
    requires s.rows[id].status.Confirmed? ==> !Emitted(s.log, ReorgedId(id, s.rows[id].hash))
    ensures Sum(MarkReorged(s, id).log, NetOf(d)) == CreditedNow(MarkReorged(s, id), d)
  {
    SumAppend(s.log, ReorgedEvent(id, s.rows[id]), NetOf(d));
  }

  lemma AbsentEvents(s: State, id: DepositId)
    requires Live(s, id) && Orphaned(s.chain, s.rows[id].hash) && (forall e :: e in s.log ==> EventOk(s, e))
    ensures forall e :: e in MarkReorged(s, id).log ==> EventOk(MarkReorged(s, id), e)
  {
    var s1 := MarkReorged(s, id);
    forall x | x in s1.log ensures EventOk(s1, x) {
      assert x == ReorgedEvent(id, s.rows[id]) || x in s.log;
    }
  }

  lemma AbsentKeeps(s: State, id: DepositId)
    requires TablesOk(s) && Live(s, id) && Orphaned(s.chain, s.rows[id].hash) && s.watch.WatchIdle?
    ensures TablesOk(MarkReorged(s, id))
  {
    AbsentEvents(s, id);
    assert RowOk(s.chain, id, s.rows[id]);
    forall d ensures Sum(MarkReorged(s, id).log, NetOf(d)) == CreditedNow(MarkReorged(s, id), d) {
      assert Sum(s.log, NetOf(d)) == CreditedNow(s, d);
      AbsentNet(s, id, d);
    }
  }

  lemma PresentNet(s: State, cfg: Settings, id: DepositId, head: nat, number: nat, hash: Hash, d: DepositId)
    requires CanCommit(s, id, number, hash) && Sum(s.log, NetOf(d)) == CreditedNow(s, d)
    ensures var s1 := CommitWatch(s, cfg, id, head, Present(number, hash)); Sum(s1.log, NetOf(d)) == CreditedNow(s1, d)
  {
    SumAppend(s.log, ConfirmedEvent(id, Repointed(s.rows[id], head, number, hash)), NetOf(d));
  }

  lemma PresentEvents(s: State, cfg: Settings, id: DepositId, head: nat, number: nat, hash: Hash)
    requires CanCommit(s, id, number, hash) && (forall e :: e in s.log ==> EventOk(s, e))
    ensures var s1 := CommitWatch(s, cfg, id, head, Present(number, hash)); forall e :: e in s1.log ==> EventOk(s1, e)
  {
    var s1 := CommitWatch(s, cfg, id, head, Present(number, hash));
    forall x | x in s1.log ensures EventOk(s1, x) {
      assert x == ConfirmedEvent(id, Repointed(s.rows[id], head, number, hash)) || x in s.log;
    }
  }

  lemma PresentKeeps(s: State, cfg: Settings, id: DepositId, head: nat, number: nat, hash: Hash)
    requires TablesOk(s) && s.watch.WatchIdle? && CanCommit(s, id, number, hash)
    ensures TablesOk(CommitWatch(s, cfg, id, head, Present(number, hash)))
  {
    var s1 := CommitWatch(s, cfg, id, head, Present(number, hash));
    PresentEvents(s, cfg, id, head, number, hash);
    assert RowOk(s.chain, id, s.rows[id]);
    forall d ensures Sum(s1.log, NetOf(d)) == CreditedNow(s1, d) {
      assert Sum(s.log, NetOf(d)) == CreditedNow(s, d);
      PresentNet(s, cfg, id, head, number, hash, d);
    }
  }

  lemma WatchCommitKeeps(s: State, cfg: Settings)
    requires Inv(s) && Enabled(s, cfg, WatchCommit)
    ensures Inv(Next(s, cfg, WatchCommit))
  {
    var idle := s.(watch := WatchIdle);
    SetWatch(s, idle);
    if s.watch.verdict.Absent? {
      AbsentKeeps(idle, s.watch.id);
      assert Next(s, cfg, WatchCommit) == MarkReorged(idle, s.watch.id);
    } else {
      var v := s.watch.verdict;
      PresentKeeps(idle, cfg, s.watch.id, s.watch.head, v.number, v.hash);
      assert Next(s, cfg, WatchCommit) == CommitWatch(idle, cfg, s.watch.id, s.watch.head, v);
    }
  }

  // ---- every step, every run ----

  lemma StepKeeps(s: State, cfg: Settings, step: Step)
    requires Inv(s) && Enabled(s, cfg, step)
    ensures Inv(Next(s, cfg, step))
  {
    var s1 := Next(s, cfg, step);
    match step
    case ChainStep(c) => ChainKeeps(s, cfg, c);
    case ScanCommit => ScanCommitKeeps(s, cfg);
    case WatchReceipt(id, head) => WatchReceiptKeeps(s, cfg, id, head);
    case WatchLogs => WatchLogsKeeps(s, cfg);
    case WatchCommit => WatchCommitKeeps(s, cfg);
    case WatchCrash => SetWatch(s, s1);
    case _ => IgnoresCursor(s, s1);
  }

  lemma {:induction false} RunKeeps(s: State, cfg: Settings, steps: seq<Step>)
    requires Inv(s) && ValidRun(s, cfg, steps)
    ensures Inv(Run(s, cfg, steps))
    decreases |steps|
  {
    if steps != [] {
      StepKeeps(s, cfg, steps[0]);
      RunKeeps(Next(s, cfg, steps[0]), cfg, steps[1..]);
    }
  }

  /**
    * In every run, with any interleaving of mining, reorgs, torn reads and crashes, the confirmations
    * emitted for a deposit minus its withdrawals is 1 if its row is CONFIRMED and 0 otherwise.
    */
  lemma Conservation(cfg: Settings, steps: seq<Step>, id: DepositId)
    requires ValidRun(EMPTY, cfg, steps)
    ensures var s := Run(EMPTY, cfg, steps);
            && Sum(s.log, NetOf(id)) == (if id in s.rows && s.rows[id].status.Confirmed? then 1 else 0)
            && UniqueIds(s.log)
  {
    EmptyInv();
    RunKeeps(EMPTY, cfg, steps);
  }

  /** No dedupe key of a confirmation or of a withdrawn confirmation is ever reused: no such fact is swallowed. */
  lemma FactsAreNeverSwallowed(cfg: Settings, steps: seq<Step>)
    requires ValidRun(EMPTY, cfg, steps) && Enabled(Run(EMPTY, cfg, steps), cfg, WatchCommit)
    ensures var s := Run(EMPTY, cfg, steps);
            var id := s.watch.id;
            match s.watch.verdict
            case Absent => s.rows[id].status.Confirmed? ==> !Emitted(s.log, Id(ReorgedEvent(id, s.rows[id])))
            case Present(number, hash) => s.rows[id].status.Detected? ==> !Emitted(s.log, ConfirmedId(id, hash))
  {
    EmptyInv();
    RunKeeps(EMPTY, cfg, steps);
  }
}
