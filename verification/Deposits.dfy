/**
  * Deposit scanner and confirmation watcher over a chain that reorganises under them.
  *
  * A tick is not atomic: the scanner reads the head, the guard hash, the logs and the tip hash one
  * after the other and then commits; the watcher reads a receipt, possibly the logs of one block, and
  * then commits. The chain may take any step, and the other loop may act, between any two of these.
  */
module Deposits {
  import opened Events
  import opened ChainModel

  datatype Status = Detected | Confirmed | Reorged

  datatype Row = Row(
    sender: Addr, recipient: Addr, amount: int, number: nat, hash: Hash, confirmations: nat, status: Status)

  datatype Settings = Settings(safety: nat, batch: nat, required: nat, finality: nat)

  /** A decoded Transfer log. */
  datatype LogEntry = LogEntry(id: DepositId, sender: Addr, recipient: Addr, amount: int, number: nat, hash: Hash)

  datatype Verdict = Absent | Present(number: nat, hash: Hash)

  datatype Scan =
    | ScanIdle
    | HeadRead(head: nat)
    | Ranged(first: nat, last: nat)
    | LogsRead(first: nat, last: nat, watched: set<Addr>, batch: seq<Block>)
    | TipRead(first: nat, last: nat, watched: set<Addr>, batch: seq<Block>, view: seq<Block>)

  datatype Watch =
    | WatchIdle
    | Moved(id: DepositId, head: nat, height: nat)
    | Judged(id: DepositId, head: nat, verdict: Verdict)

  /** History: block `hash` was scanned while `watched` were the addresses of the service. */
  datatype ScanRecord = ScanRecord(hash: Hash, watched: set<Addr>)

  /**
    * `rows`, `cursor`, `tip`, `addresses` and `log` are the tables. `scan` and `watch` hold what a tick
    * in progress has read. `scans` and `base` are history: which blocks were scanned, and the chain up
    * to the cursor as it was when the tip hash of the last committed tick was read.
    */
  datatype State = State(
    chain: Chain,
    rows: map<DepositId, Row>,
    cursor: nat,
    tip: Option<Hash>,
    addresses: set<Addr>,
    log: seq<Event>,
    scan: Scan,
    watch: Watch,
    scans: set<ScanRecord>,
    base: seq<Block>)

  const CHAIN_ASSET: Asset := "USDT"

  function Min(a: int, b: int): int { if a <= b then a else b }
  function Max(a: int, b: int): int { if a <= b then b else a }

  // ---- scanner ----

  /** `current_hash != last_hash` for a stored, non-empty hash. */
  predicate TipMoved(s: State)
  {
    s.tip.Some? && HashAt(s.chain.path, s.cursor) != s.tip
  }

  function ScanBase(s: State, cfg: Settings): nat
  {
    if TipMoved(s) then Max(0, s.cursor - cfg.safety) else s.cursor
  }

  function GuardRead(s: State, cfg: Settings, head: nat): Scan
  {
    var first := ScanBase(s, cfg) + 1;
    var last := Min(head, first + cfg.batch - 1);
    if first > last then ScanIdle else Ranged(first, last)
  }

  function Blocks(path: seq<Block>, first: nat, last: nat): seq<Block>
    requires 1 <= first <= last
  {
    if first - 1 <= |path| then path[first - 1..Min(last, |path|)] else []
  }

  function LogOf(b: Block, x: Included, logIndex: nat): LogEntry
  {
    LogEntry(DepositId(x.tx, logIndex), x.info.sender, x.info.recipient, x.info.amount, b.number, b.hash)
  }

  /** The mined logs of a block sent to a watched address by somebody else. */
  function External(b: Block, txs: seq<Included>, watched: set<Addr>): seq<LogEntry>
  {
    if txs == [] then []
    else
      var x := txs[|txs| - 1];
      External(b, txs[..|txs| - 1], watched) +
      (if x.logIndex.Some? && x.info.recipient in watched && x.info.sender !in watched
       then [LogOf(b, x, x.logIndex.value)]
       else [])
  }

  function Entries(batch: seq<Block>, watched: set<Addr>): seq<LogEntry>
  {
    if batch == [] then []
    else
      var b := batch[|batch| - 1];
      Entries(batch[..|batch| - 1], watched) + External(b, b.txs, watched)
  }

  function Fresh(e: LogEntry): Row
  {
    Row(e.sender, e.recipient, e.amount, e.number, e.hash, 0, Detected)
  }

  /** Insert a new deposit, revive a reorged one, leave a live one alone. */
  function Upsert(s: State, e: LogEntry): State
  {
    if e.id in s.rows && !s.rows[e.id].status.Reorged? then s
    else
      var row := if e.id in s.rows
                 then s.rows[e.id].(number := e.number, hash := e.hash, status := Detected, confirmations := 0)
                 else Fresh(e);
      s.(rows := s.rows[e.id := row], log := Enqueue(s.log, DepositDetected(e.id, e.hash)))
  }

  function UpsertAll(s: State, es: seq<LogEntry>): State
  {
    if es == [] then s else Upsert(UpsertAll(s, es[..|es| - 1]), es[|es| - 1])
  }

  function CommitScan(s: State, first: nat, last: nat, watched: set<Addr>, batch: seq<Block>, view: seq<Block>): State
  {
    UpsertAll(s, Entries(batch, watched))
      .(cursor := last, tip := HashAt(view, last), base := view, scan := ScanIdle,
        scans := s.scans + set b | b in batch :: ScanRecord(b.hash, watched))
  }

  // ---- watcher ----

  predicate Live(s: State, id: DepositId)
  {
    id in s.rows && !s.rows[id].status.Reorged?
  }

  predicate OnWatchlist(s: State, cfg: Settings, id: DepositId, head: nat)
  {
    Live(s, id) && s.rows[id].number > head - cfg.finality
  }

  function ReadReceipt(s: State, id: DepositId, head: nat): Watch
    requires id in s.rows
  {
    match ReceiptIndex(s.chain.path, id.tx)
    case None => Judged(id, head, Absent)
    case Some(i) =>
      if s.chain.path[i].hash == s.rows[id].hash then Judged(id, head, Present(i + 1, s.chain.path[i].hash))
      else Moved(id, head, i + 1)
  }

  /** The transaction sits in another block: it is the same deposit only if the same log is there. */
  function ReadLogs(s: State, id: DepositId, head: nat, height: nat): Watch
    requires id in s.rows
  {
    if 1 <= height <= |s.chain.path| && HasLogTo(s.chain.path[height - 1], id, s.rows[id].recipient)
    then Judged(id, head, Present(height, s.chain.path[height - 1].hash))
    else Judged(id, head, Absent)
  }

  function ReorgedEvent(id: DepositId, row: Row): Event
  {
    DepositReorged(id, row.hash, row.recipient, CHAIN_ASSET, row.amount, row.status.Confirmed?)
  }

  function ConfirmedEvent(id: DepositId, row: Row): Event
  {
    DepositConfirmed(id, row.hash, row.recipient, CHAIN_ASSET, row.amount)
  }

  function MarkReorged(s: State, id: DepositId): State
    requires id in s.rows
  {
    s.(rows := s.rows[id := s.rows[id].(status := Reorged)], log := Enqueue(s.log, ReorgedEvent(id, s.rows[id])))
  }

  function Repointed(row: Row, head: nat, number: nat, hash: Hash): Row
  {
    row.(number := number, hash := hash, confirmations := Max(0, head - number + 1))
  }

  function CommitWatch(s: State, cfg: Settings, id: DepositId, head: nat, verdict: Verdict): State
    requires id in s.rows
  {
    match verdict
    case Absent => MarkReorged(s, id)
    case Present(number, hash) =>
      var row := Repointed(s.rows[id], head, number, hash);
      if row.status.Detected? && row.confirmations >= cfg.required then
        s.(rows := s.rows[id := row.(status := Confirmed)], log := Enqueue(s.log, ConfirmedEvent(id, row)))
      else
        s.(rows := s.rows[id := row])
  }

  // ---- steps ----

  datatype Step =
    | ChainStep(step: NodeStep)
    | AddAddress(address: Addr)
    | ScanHead | ScanGuard | ScanLogs | ScanTip | ScanCommit | ScanCrash
    | WatchReceipt(id: DepositId, head: nat)
    | WatchLogs | WatchCommit | WatchCrash

  ghost predicate Enabled(s: State, cfg: Settings, step: Step)
  {
    match step
    case ChainStep(c) => NodeEnabled(s.chain, c)
    case ScanHead => s.scan.ScanIdle? && |s.chain.path| > 0
    case ScanGuard => s.scan.HeadRead?
    case ScanLogs => s.scan.Ranged? && 1 <= s.scan.first <= s.scan.last
    case ScanTip => s.scan.LogsRead?
    case ScanCommit => s.scan.TipRead?
    case WatchReceipt(id, head) => s.watch.WatchIdle? && OnWatchlist(s, cfg, id, head)
    case WatchLogs => s.watch.Moved? && s.watch.id in s.rows
    case WatchCommit => s.watch.Judged? && s.watch.id in s.rows
    case _ => true
  }

  ghost function Next(s: State, cfg: Settings, step: Step): State
    requires Enabled(s, cfg, step)
  {
    match step
    case ChainStep(c) => s.(chain := NodeNext(s.chain, c))
    case AddAddress(a) => s.(addresses := s.addresses + {a})
    case ScanHead => s.(scan := HeadRead(|s.chain.path|))
    case ScanGuard => s.(scan := GuardRead(s, cfg, s.scan.head))
    case ScanLogs =>
      s.(scan := LogsRead(s.scan.first, s.scan.last, s.addresses, Blocks(s.chain.path, s.scan.first, s.scan.last)))
    case ScanTip =>
      s.(scan := TipRead(s.scan.first, s.scan.last, s.scan.watched, s.scan.batch,
                         s.chain.path[..Min(s.scan.last, |s.chain.path|)]))
    case ScanCommit => CommitScan(s, s.scan.first, s.scan.last, s.scan.watched, s.scan.batch, s.scan.view)
    case ScanCrash => s.(scan := ScanIdle)
    case WatchReceipt(id, head) => s.(watch := ReadReceipt(s, id, head))
    case WatchLogs => s.(watch := ReadLogs(s, s.watch.id, s.watch.head, s.watch.height))
    case WatchCommit => CommitWatch(s, cfg, s.watch.id, s.watch.head, s.watch.verdict).(watch := WatchIdle)
    case WatchCrash => s.(watch := WatchIdle)
  }

  ghost predicate ValidRun(s: State, cfg: Settings, steps: seq<Step>)
    decreases |steps|
  {
    steps == [] || (Enabled(s, cfg, steps[0]) && ValidRun(Next(s, cfg, steps[0]), cfg, steps[1..]))
  }

  ghost function Run(s: State, cfg: Settings, steps: seq<Step>): State
    requires ValidRun(s, cfg, steps)
    decreases |steps|
  {
    if steps == [] then s else Run(Next(s, cfg, steps[0]), cfg, steps[1..])
  }

  // ---- runs grow at their end ----

  lemma {:induction false} RunSnoc(s: State, cfg: Settings, steps: seq<Step>, step: Step)
    requires ValidRun(s, cfg, steps) && Enabled(Run(s, cfg, steps), cfg, step)
    ensures ValidRun(s, cfg, steps + [step])
    ensures Run(s, cfg, steps + [step]) == Next(Run(s, cfg, steps), cfg, step)
    decreases |steps|
  {
    if steps == [] {
      assert [] + [step] == [step] && [step][1..] == [];
      assert ValidRun(Next(s, cfg, step), cfg, []);
    } else {
      RunSnoc(Next(s, cfg, steps[0]), cfg, steps[1..], step);
      assert (steps + [step])[1..] == steps[1..] + [step];
    }
  }

  lemma {:induction false} RunConcat(s: State, cfg: Settings, a: seq<Step>, b: seq<Step>)
    requires ValidRun(s, cfg, a) && ValidRun(Run(s, cfg, a), cfg, b)
    ensures ValidRun(s, cfg, a + b) && Run(s, cfg, a + b) == Run(Run(s, cfg, a), cfg, b)
    decreases |a|
  {
    if a == [] {
      assert [] + b == b;
    } else {
      RunConcat(Next(s, cfg, a[0]), cfg, a[1..], b);
      assert (a + b)[1..] == a[1..] + b;
    }
  }

  const EMPTY: State := State(Chain([], map[], map[]), map[], 0, None, {}, [], ScanIdle, WatchIdle, {}, [])
}
