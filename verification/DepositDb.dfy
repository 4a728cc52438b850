/**
  * The scanner and the watcher as the code runs them, changing the deposit tables in place. Every
  * read of the node may see another chain: each read takes the canonical path it sees.
  */
module DepositDb {
  import opened Events
  import opened ChainModel
  import opened Deposits
  import DC = DepositConservation
  import opened TornTicks
  import opened ScanWrites
  import Atomic = AtomicTicks
  import DepositHistory

  // ---- what the node answers ----

  /** `get_transfer_logs` with a recipient filter: internal movements are still in it. */
  function LogsTo(b: Block, txs: seq<Included>, watched: set<Addr>): seq<LogEntry>
  {
    if txs == [] then []
    else
      var x := txs[|txs| - 1];
      LogsTo(b, txs[..|txs| - 1], watched) +
      (if x.logIndex.Some? && x.info.recipient in watched
       then [LogOf(b, x, x.logIndex.value)]
       else [])
  }

  function TransferLogs(batch: seq<Block>, watched: set<Addr>): seq<LogEntry>
  {
    if batch == [] then []
    else
      var b := batch[|batch| - 1];
      TransferLogs(batch[..|batch| - 1], watched) + LogsTo(b, b.txs, watched)
  }

  function NotOurs(logs: seq<LogEntry>, ours: set<Addr>): seq<LogEntry>
  {
    if logs == [] then []
    else NotOurs(logs[..|logs| - 1], ours) + if logs[|logs| - 1].sender in ours then [] else [logs[|logs| - 1]]
  }

  lemma {:induction false} NotOursSplits(a: seq<LogEntry>, b: seq<LogEntry>, ours: set<Addr>)
    ensures NotOurs(a + b, ours) == NotOurs(a, ours) + NotOurs(b, ours)
  {
    if b == [] {
      assert a + b == a;
    } else {
      var last := |b| - 1;
      assert (a + b)[..|a + b| - 1] == a + b[..last];
      NotOursSplits(a, b[..last], ours);
    }
  }

  lemma {:induction false} LogsToExternal(b: Block, txs: seq<Included>, watched: set<Addr>)
    ensures NotOurs(LogsTo(b, txs, watched), watched) == External(b, txs, watched)
  {
    if txs != [] {
      var last := |txs| - 1;
      LogsToExternal(b, txs[..last], watched);
      var rest := LogsTo(b, txs[..last], watched);
      var x := txs[last];
      if x.logIndex.Some? && x.info.recipient in watched {
        var e := LogOf(b, x, x.logIndex.value);
        assert (rest + [e])[..|rest|] == rest;
      } else {
        assert LogsTo(b, txs, watched) == rest;
      }
    }
  }

  /** Dropping the entries sent from watched addresses leaves the external deposits. */
  lemma {:induction false} TransferLogsExternal(batch: seq<Block>, watched: set<Addr>)
    ensures NotOurs(TransferLogs(batch, watched), watched) == Entries(batch, watched)
  {
    if batch != [] {
      var b := batch[|batch| - 1];
      TransferLogsExternal(batch[..|batch| - 1], watched);
      LogsToExternal(b, b.txs, watched);
      NotOursSplits(TransferLogs(batch[..|batch| - 1], watched), LogsTo(b, b.txs, watched), watched);
    }
  }

  // ---- the tables ----

  datatype Outcome = Gone | ReorgedNow | ConfirmedNow | Checked

  class DepositDb {
    var rows: map<DepositId, Row>
    var cursor: nat
    var tip: Option<Hash>
    var addresses: set<Addr>
    var log: seq<Event>
    /** History: the blocks scanned, and the chain seen by the last tick. */
    ghost var scans: set<ScanRecord>
    ghost var base: seq<Block>

    /** The state of the protocol between ticks, over a given chain. */
    ghost function Value(c: Chain): State
      reads this
    {
      State(c, rows, cursor, tip, addresses, log, ScanIdle, WatchIdle, scans, base)
    }

    constructor ()
      ensures Value(Chain([], map[], map[])) == EMPTY
    {
      rows, cursor, tip, addresses, log, scans, base := map[], 0, None, {}, [], {}, [];
    }

    // ---- scanner ----

    /** The reorg guard and the range of the tick. */
    method Range(cfg: Settings, head: seq<Block>, guard: seq<Block>, ghost c: Chain) returns (first: nat, last: int)
      ensures if first > last then ScanOf(Value(c), cfg, head, guard) == ScanIdle
              else 1 <= first && ScanOf(Value(c), cfg, head, guard) == Ranged(first, last)
    {
      var from := cursor;
      if tip.Some? {
        if HashAt(guard, cursor) != tip {
          from := Max(0, cursor - cfg.safety);
        }
      }
      first := from + 1;
      last := Min(|head|, first + cfg.batch - 1);
    }

    /** Insert, revive or leave alone; says whether an event was enqueued. */
    method Upsert(e: LogEntry, ghost c: Chain) returns (detected: bool)
      modifies this`rows, this`log
      ensures Value(c) == Deposits.Upsert(old(Value(c)), e)
      ensures detected <==> e.id !in old(rows) || old(rows)[e.id].status.Reorged?
    {
      if e.id !in rows {
        rows := rows[e.id := Row(e.sender, e.recipient, e.amount, e.number, e.hash, 0, Detected)];
      } else if rows[e.id].status.Reorged? {
        rows := rows[e.id := rows[e.id].(number := e.number, hash := e.hash, status := Detected, confirmations := 0)];
      } else {
        return false;
      }
      log := Enqueue(log, DepositDetected(e.id, e.hash));
      detected := true;
    }

    method UpsertAll(es: seq<LogEntry>, ghost c: Chain) returns (detected: nat)
      modifies this`rows, this`log
      ensures Value(c) == Deposits.UpsertAll(old(Value(c)), es)
      ensures detected == |NewlyLive(old(rows), rows)|
    {
      ghost var s := Value(c);
      detected := 0;
      for i := 0 to |es|
        invariant Value(c) == Deposits.UpsertAll(s, es[..i]) && detected == |NewlyLive(s.rows, rows)|
        invariant forall id :: id in s.rows && !s.rows[id].status.Reorged? ==> Live(Value(c), id)
      {
        assert es[..i + 1][..i] == es[..i];
        ghost var v := Value(c);
        var isNew := Upsert(es[i], c);
        SetOneMore(NewlyLive(s.rows, v.rows), NewlyLive(s.rows, rows), es[i].id, isNew);
        if isNew {
          detected := detected + 1;
        }
      }
      assert es[..|es|] == es;
    }

    /**
      * One scanner tick while the node takes the steps `moves` between its reads: a run of the protocol, so
      * conservation and the scanner's history are kept however the reads are torn.
      */
    method ScanOnce(
        cfg: Settings, head: seq<Block>, guard: seq<Block>, logs: seq<Block>, tip: seq<Block>,
        ghost c: Chain, ghost moves: Moves)
      returns (detected: nat, internal: nat)
      requires ValidMoves(c, moves)
      requires head == c.path && guard == AfterHead(c, moves).path
      requires logs == AfterGuard(c, moves).path && tip == AfterLogs(c, moves).path
      modifies this
      ensures ValidRun(old(Value(c)), cfg, ScanSteps(old(Value(c)), cfg, moves))
      ensures Value(AfterTip(c, moves)) == Run(old(Value(c)), cfg, ScanSteps(old(Value(c)), cfg, moves))
      ensures DC.Inv(old(Value(c))) ==> DC.Inv(Value(AfterTip(c, moves)))
      ensures DepositHistory.History(old(Value(c))) ==> DepositHistory.History(Value(AfterTip(c, moves)))
      ensures DC.Inv(old(Value(c))) ==>
                TickWrote(cfg, old(Value(c)), Value(AfterTip(c, moves)), head, guard, logs, tip)
      ensures detected == |NewlyLive(old(rows), rows)|
    {
      ghost var s := Value(c);
      if DC.Inv(s) {
        TornTickWrites(s, cfg, moves);
      }
      detected, internal := ScanViews(cfg, head, guard, logs, tip, c);
      TornScanIsRun(s, cfg, moves);
      TornScanKeeps(s, cfg, moves);
    }

    /** One scanner tick over four views of the chain. */
    method ScanViews(
        cfg: Settings, head: seq<Block>, guard: seq<Block>, logs: seq<Block>, tipView: seq<Block>, ghost c: Chain)
      returns (detected: nat, internal: nat)
      modifies this
      ensures Value(c) == TornScan(old(Value(c)), cfg, head, guard, logs, tipView)
      ensures addresses == old(addresses) && detected == |NewlyLive(old(rows), rows)|
    {
      var first, last := Range(cfg, head, guard, c);
      if |head| == 0 || first > last {
        NothingNew(rows);
        return 0, 0;
      }
      detected, internal := WriteRange(first, last, logs, tipView, c);
    }

    /** The session that registers the deposits of the range and stores the cursor. */
    method WriteRange(first: nat, last: nat, logs: seq<Block>, tipView: seq<Block>, ghost c: Chain)
      returns (detected: nat, internal: nat)
      requires 1 <= first <= last
      modifies this
      ensures Value(c) == CommitScan(old(Value(c)), first, last, old(addresses), Blocks(logs, first, last),
                                     tipView[..Min(last, |tipView|)])
      ensures addresses == old(addresses) && detected == |NewlyLive(old(rows), rows)|
    {
      var batch := Blocks(logs, first, last);
      var found := TransferLogs(batch, addresses);
      var external;
      external, internal := SplitLogs(found, addresses);
      TransferLogsExternal(batch, addresses);
      detected := UpsertAll(external, c);
      cursor, tip := last, HashAt(tipView[..Min(last, |tipView|)], last);
      scans := scans + set b | b in batch :: ScanRecord(b.hash, addresses);
      base := tipView[..Min(last, |tipView|)];
    }

    // ---- watcher ----

    method MarkReorged(id: DepositId, ghost c: Chain)
      requires id in rows
      modifies this`rows, this`log
      ensures Value(c) == Deposits.MarkReorged(old(Value(c)), id)
    {
      var row := rows[id];
      rows := rows[id := row.(status := Reorged)];
      log := Enqueue(log, DepositReorged(id, row.hash, row.recipient, CHAIN_ASSET, row.amount, row.status.Confirmed?));
    }

    /** One check while the node takes the steps `a` and `b` between its reads and its commit: a run of the protocol. */
    method ReverifyTorn(
        cfg: Settings, id: DepositId, head: nat, receipt: seq<Block>, logs: seq<Block>,
        ghost c: Chain, ghost a: seq<NodeStep>, ghost b: seq<NodeStep>)
      returns (r: Outcome)
      requires OnWatchlist(Value(c), cfg, id, head)
      requires ValidNodeRun(c, a) && ValidNodeRun(NodeRun(c, a), b)
      requires receipt == c.path && logs == NodeRun(c, a).path
      modifies this`rows, this`log
      ensures ValidRun(old(Value(c)), cfg, CheckSteps(old(Value(c)), id, head, a, b))
      ensures Value(NodeRun(NodeRun(c, a), b)) == Run(old(Value(c)), cfg, CheckSteps(old(Value(c)), id, head, a, b))
      ensures DC.Inv(old(Value(c))) ==> DC.Inv(Value(NodeRun(NodeRun(c, a), b)))
    {
      ghost var s := Value(c);
      r := Reverify(cfg, id, head, receipt, logs, c);
      TornCheckIsRun(s, cfg, id, head, a, b);
      TornCheckKeeps(s, cfg, id, head, a, b);
    }

    /** One check over two views of the chain. */
    method Reverify(
        cfg: Settings, id: DepositId, head: nat, receipt: seq<Block>, logs: seq<Block>, ghost c: Chain)
      returns (r: Outcome)
      modifies this`rows, this`log
      ensures r.Gone? <==> id !in old(rows)
      ensures id in old(rows) ==>
                Value(c) == CommitWatch(old(Value(c)), cfg, id, head, TornVerdict(old(Value(c)), id, receipt, logs))
      ensures id !in old(rows) ==> Value(c) == old(Value(c))
      ensures id in old(rows) ==>
                && (r.ConfirmedNow? <==> rows[id].status.Confirmed? && old(rows)[id].status.Detected?)
                && (r.ReorgedNow? || old(rows)[id].status.Reorged? <==> rows[id].status.Reorged?)
    {
      if id !in rows {
        return Gone;
      }
      var row := rows[id];
      var found := ReceiptIndex(receipt, id.tx);
      var present, number, hash := false, 0, row.hash;
      if found.Some? {
        var i := found.value;
        if receipt[i].hash == row.hash {
          present, number, hash := true, i + 1, receipt[i].hash;
        } else if i < |logs| && HasLogTo(logs[i], id, row.recipient) {
          present, number, hash := true, i + 1, logs[i].hash;
        }
      }
      if !present {
        MarkReorged(id, c);
        return ReorgedNow;
      }
      row := row.(number := number, hash := hash, confirmations := Max(0, head - number + 1));
      if row.status.Detected? && row.confirmations >= cfg.required {
        rows := rows[id := row.(status := Confirmed)];
        log := Enqueue(log, DepositConfirmed(id, hash, row.recipient, CHAIN_ASSET, row.amount));
        return ConfirmedNow;
      }
      rows := rows[id := row];
      r := Checked;
    }

    /**
      * One watcher tick over a chain that stands still: every DETECTED or CONFIRMED row above the finality depth
      * is re-checked, tells the truth about the canonical chain afterwards, and what became of it is announced;
      * no other row has changed.
      */
    method WatchOnce(cfg: Settings, head: nat, c: Chain) returns (confirmed: nat, reorged: nat)
      requires DC.Inv(Value(c))
      modifies this`rows, this`log
      ensures DC.Inv(Value(c)) && rows.Keys == old(rows).Keys && old(log) <= log
      ensures forall id :: id in old(rows) ==>
                var r := old(rows)[id];
                if (r.status == Detected || r.status == Status.Confirmed) && r.number > head - cfg.finality
                then Truthful(c, cfg, head, id, r, rows[id]) && Told(log, id, r, rows[id])
                else rows[id] == r
      ensures confirmed == |NewlyConfirmed(old(rows), rows)| && reorged == |NewlyLost(old(rows), rows)|
    {
      ghost var start := Value(c);
      ghost var s := start;
      confirmed, reorged := 0, 0;
      NothingNew(rows);
      var rest := set id | id in rows && (rows[id].status.Detected? || rows[id].status.Confirmed?)
                           && rows[id].number > head - cfg.finality;
      while rest != {}
        invariant Value(c) == s && s.chain == c && Atomic.Quiet(s) && Verified(start, s, cfg, head, rest)
        invariant confirmed == |NewlyConfirmed(start.rows, s.rows)| && reorged == |NewlyLost(start.rows, s.rows)|
        decreases rest
      {
        var id :| id in rest;
        CheckedOne(start, s, cfg, head, rest, id);
        StillListed(start, s, cfg, head, rest, id);
        CheckCounts(start.rows, s, cfg, head, id, TornVerdict(s, id, c.path, c.path));
        var outcome := Reverify(cfg, id, head, c.path, c.path, c);
        s := CommitWatch(s, cfg, id, head, TornVerdict(s, id, c.path, c.path));
        if outcome.ConfirmedNow? {
          confirmed := confirmed + 1;
        } else if outcome.ReorgedNow? {
          reorged := reorged + 1;
        }
        rest := rest - {id};
      }
      AllVerified(start, s, cfg, head);
    }
  }

  // ---- what a scanner tick writes ----

  /**
    * From `s` to `t` one tick with these four views. It scans from the cursor, or from the safety margin
    * below it if the guard's block is not the stored tip, up to the head or as far as the batch goes;
    * it registers the deposits of the blocks in between and stores cursor and tip. Without such a block it
    * changes nothing.
    */
  ghost predicate TickWrote(
      cfg: Settings, s: State, t: State, head: seq<Block>, guard: seq<Block>, logs: seq<Block>, tip: seq<Block>)
  {
    var from := ScanFrom(s, cfg, guard);
    var last := Min(|head|, from + cfg.batch);
    && t.addresses == s.addresses
    && if last <= from then t.rows == s.rows && t.log == s.log && t.cursor == s.cursor && t.tip == s.tip
       else
         && t.cursor == last && t.tip == HashAt(tip, last)
         && RangeWritten(s.rows, s.log, t.rows, t.log, s.addresses, logs, from, last)
  }

  /** From the cursor, or from the safety margin below it if the block there is not the stored tip. */
  function ScanFrom(s: State, cfg: Settings, guard: seq<Block>): nat
  {
    if s.tip.Some? && HashAt(guard, s.cursor) != s.tip then Max(0, s.cursor - cfg.safety) else s.cursor
  }

  /** The deposits in the blocks of `logs` above `from`, up to `last`, are written. */
  ghost predicate RangeWritten(
      rows: map<DepositId, Row>, log: seq<Event>, rows1: map<DepositId, Row>, log1: seq<Event>, ours: set<Addr>,
      logs: seq<Block>, from: nat, last: nat)
  {
    exists batch ::
      && (forall b :: b in batch <==> b in logs && from < b.number <= last)
      && Written(rows, log, rows1, log1, batch, ours)
  }

  lemma TornScanWrites(
      s: State, cfg: Settings, head: seq<Block>, guard: seq<Block>, logs: seq<Block>, tip: seq<Block>)
    requires Linked(logs) && TxOnce(logs) && SameTerms(s.rows, logs, s.addresses)
    ensures TickWrote(cfg, s, TornScan(s, cfg, head, guard, logs, tip), head, guard, logs, tip)
  {
    var from := ScanFrom(s, cfg, guard);
    var last := Min(|head|, from + cfg.batch);
    RangeIs(s, cfg, head, guard);
    if last > from {
      RangedWrites(s, cfg, from, last, head, guard, logs, tip);
    }
  }

  /** The range of a tick, from what the tables and the guard read say. */
  lemma RangeIs(s: State, cfg: Settings, head: seq<Block>, guard: seq<Block>)
    ensures var from := ScanFrom(s, cfg, guard);
            var last := Min(|head|, from + cfg.batch);
            ScanOf(s, cfg, head, guard) == if last <= from then ScanIdle else Ranged(from + 1, last)
  {
  }

  lemma RangedWrites(
      s: State, cfg: Settings, from: nat, last: nat, head: seq<Block>, guard: seq<Block>, logs: seq<Block>,
      tip: seq<Block>)
    requires ScanOf(s, cfg, head, guard) == Ranged(from + 1, last) && from < last <= |head|
    requires Linked(logs) && TxOnce(logs) && SameTerms(s.rows, logs, s.addresses)
    ensures var t := TornScan(s, cfg, head, guard, logs, tip);
            && t.cursor == last && t.tip == HashAt(tip, last) && t.addresses == s.addresses
            && RangeWritten(s.rows, s.log, t.rows, t.log, s.addresses, logs, from, last)
  {
    ViewWrites(s, from, last, logs, tip);
  }

  lemma ViewWrites(s: State, from: nat, last: nat, logs: seq<Block>, tip: seq<Block>)
    requires from < last && Linked(logs) && TxOnce(logs) && SameTerms(s.rows, logs, s.addresses)
    ensures var t := CommitScan(s, from + 1, last, s.addresses, Blocks(logs, from + 1, last), tip[..Min(last, |tip|)]);
            && t.cursor == last && t.tip == HashAt(tip, last) && t.addresses == s.addresses
            && RangeWritten(s.rows, s.log, t.rows, t.log, s.addresses, logs, from, last)
  {
    var batch := Blocks(logs, from + 1, last);
    BlocksAre(logs, from + 1, last);
    PartHasTerms(s.rows, logs, batch, s.addresses);
    CommitTables(s, from + 1, last, batch, tip);
    CommitWrites(s, batch, s.addresses);
  }

  lemma PartHasTerms(rows: map<DepositId, Row>, logs: seq<Block>, batch: seq<Block>, ours: set<Addr>)
    requires SameTerms(rows, logs, ours) && forall b :: b in batch ==> b in logs
    ensures SameTerms(rows, batch, ours)
  {
    forall b, x | Holds(batch, ours, b, x) ensures Holds(logs, ours, b, x) {
    }
  }

  lemma CommitTables(s: State, first: nat, last: nat, batch: seq<Block>, tip: seq<Block>)
    requires 1 <= first <= last
    ensures var t := CommitScan(s, first, last, s.addresses, batch, tip[..Min(last, |tip|)]);
            var u := UpsertAll(s, Entries(batch, s.addresses));
            && t.rows == u.rows && t.log == u.log && t.addresses == s.addresses
            && t.cursor == last && t.tip == HashAt(tip, last)
  {
    DepositHistory.UpsertAllTables(s, Entries(batch, s.addresses));
  }

  lemma TornTickWrites(s: State, cfg: Settings, m: Moves)
    requires DC.Inv(s) && ValidMoves(s.chain, m)
    ensures var guard, logs, tip := AfterHead(s.chain, m).path, AfterGuard(s.chain, m).path, AfterLogs(s.chain, m).path;
            var t := TornScan(s, cfg, s.chain.path, guard, logs, tip);
            TickWrote(cfg, s, t, s.chain.path, guard, logs, tip)
  {
    LogsAreFit(s, m);
    TornScanWrites(s, cfg, s.chain.path, AfterHead(s.chain, m).path, AfterGuard(s.chain, m).path,
                   AfterLogs(s.chain, m).path);
  }

  /** The chain the logs are read from holds each deposit once and with the terms of its row. */
  lemma LogsAreFit(s: State, m: Moves)
    requires DC.Inv(s) && ValidMoves(s.chain, m)
    ensures var logs := AfterGuard(s.chain, m).path;
            Linked(logs) && TxOnce(logs) && SameTerms(s.rows, logs, s.addresses)
  {
    var c := AfterGuard(s.chain, m);
    RunOk(s.chain, m.head);
    RunOk(AfterHead(s.chain, m), m.guard);
    SubmittedStays(s.chain, m.head);
    SubmittedStays(AfterHead(s.chain, m), m.guard);
    TermsAgree(s, c, c.path, s.addresses);
  }

  /** Of the rows on the watchlist at `start`, all but `rest` are checked; the other rows are as they were. */
  ghost predicate Verified(start: State, s: State, cfg: Settings, head: nat, rest: set<DepositId>)
  {
    && DC.Inv(s) && s.rows.Keys == start.rows.Keys && start.log <= s.log
    && (forall id :: id in rest ==> OnWatchlist(start, cfg, id, head))
    && (forall id :: id in s.rows ==> RowVerified(start, s, cfg, head, rest, id))
  }

  ghost predicate RowVerified(start: State, s: State, cfg: Settings, head: nat, rest: set<DepositId>, id: DepositId)
    requires id in s.rows && id in start.rows
  {
    if OnWatchlist(start, cfg, id, head) && id !in rest
    then Truthful(s.chain, cfg, head, id, start.rows[id], s.rows[id]) && Told(s.log, id, start.rows[id], s.rows[id])
    else s.rows[id] == start.rows[id]
  }

  function NewlyLive(before: map<DepositId, Row>, after: map<DepositId, Row>): set<DepositId>
  {
    set id | id in after && Missing(before, id) && !Missing(after, id)
  }

  function NewlyConfirmed(before: map<DepositId, Row>, after: map<DepositId, Row>): set<DepositId>
  {
    set id | id in before && id in after && before[id].status.Detected? && after[id].status.Confirmed?
  }

  function NewlyLost(before: map<DepositId, Row>, after: map<DepositId, Row>): set<DepositId>
  {
    set id | id in before && id in after && !before[id].status.Reorged? && after[id].status.Reorged?
  }

  lemma NothingNew(rows: map<DepositId, Row>)
    ensures NewlyLive(rows, rows) == {} && NewlyConfirmed(rows, rows) == {} && NewlyLost(rows, rows) == {}
  {
  }

  ghost predicate CountsMove(
      start: map<DepositId, Row>, rows: map<DepositId, Row>, after: map<DepositId, Row>, id: DepositId)
    requires id in rows && id in after
  {
    && |NewlyConfirmed(start, after)| ==
       |NewlyConfirmed(start, rows)| + (if rows[id].status.Detected? && after[id].status.Confirmed? then 1 else 0)
    && |NewlyLost(start, after)| == |NewlyLost(start, rows)| + (if after[id].status.Reorged? then 1 else 0)
  }

  lemma CheckCounts(start: map<DepositId, Row>, s: State, cfg: Settings, head: nat, id: DepositId, v: Verdict)
    requires id in start && id in s.rows && s.rows[id] == start[id] && !s.rows[id].status.Reorged?
    ensures id in CommitWatch(s, cfg, id, head, v).rows
    ensures CountsMove(start, s.rows, CommitWatch(s, cfg, id, head, v).rows, id)
  {
    CountOneMore(start, s.rows, CommitWatch(s, cfg, id, head, v).rows, id);
  }

  /** One live row, as it was at the start, is rechecked. */
  lemma CountOneMore(
      start: map<DepositId, Row>, rows: map<DepositId, Row>, after: map<DepositId, Row>, id: DepositId)
    requires id in start && id in rows && rows[id] == start[id] && !rows[id].status.Reorged?
    requires after.Keys == rows.Keys && forall o :: o in rows && o != id ==> after[o] == rows[o]
    ensures CountsMove(start, rows, after, id)
  {
    SetOneMore(NewlyConfirmed(start, rows), NewlyConfirmed(start, after), id,
               rows[id].status.Detected? && after[id].status.Confirmed?);
    SetOneMore(NewlyLost(start, rows), NewlyLost(start, after), id, after[id].status.Reorged?);
  }

  lemma SetOneMore<T>(a: set<T>, b: set<T>, x: T, added: bool)
    requires (added ==> x !in a) && forall y :: y in b <==> y in a || (y == x && added)
    ensures |b| == |a| + if added then 1 else 0
  {
    assert b == if added then a + {x} else a;
  }

  lemma AllVerified(start: State, s: State, cfg: Settings, head: nat)
    requires Verified(start, s, cfg, head, {})
    ensures forall id :: id in start.rows ==>
              var r := start.rows[id];
              if (r.status == Detected || r.status == Status.Confirmed) && r.number > head - cfg.finality
              then Truthful(s.chain, cfg, head, id, r, s.rows[id]) && Told(s.log, id, r, s.rows[id])
              else s.rows[id] == r
  {
    forall id | id in start.rows ensures RowVerified(start, s, cfg, head, {}, id) {
    }
  }

  lemma VerifyOneMore(start: State, s: State, cfg: Settings, head: nat, rest: set<DepositId>, id: DepositId, t: State)
    requires Verified(start, s, cfg, head, rest) && id in rest
    requires DC.Inv(t) && Judges(s, t, cfg, head, id)
    ensures Verified(start, t, cfg, head, rest - {id})
  {
    assert RowVerified(start, s, cfg, head, rest, id);
    RowsVerified(start, s, t, cfg, head, rest, id);
  }

  lemma CheckedOne(start: State, s: State, cfg: Settings, head: nat, rest: set<DepositId>, id: DepositId)
    requires Atomic.Quiet(s) && Verified(start, s, cfg, head, rest) && id in rest
    ensures id in s.rows
    ensures var t := CommitWatch(s, cfg, id, head, TornVerdict(s, id, s.chain.path, s.chain.path));
            Verified(start, t, cfg, head, rest - {id}) && t.chain == s.chain && Atomic.Quiet(t)
  {
    StillListed(start, s, cfg, head, rest, id);
    CheckKeepsInv(s, cfg, id, head);
    CheckTells(s, cfg, id, head);
    var v := TornVerdict(s, id, s.chain.path, s.chain.path);
    VerifyOneMore(start, s, cfg, head, rest, id, CommitWatch(s, cfg, id, head, v));
  }

  lemma StillListed(start: State, s: State, cfg: Settings, head: nat, rest: set<DepositId>, id: DepositId)
    requires Verified(start, s, cfg, head, rest) && id in rest
    ensures OnWatchlist(s, cfg, id, head) && id in start.rows && s.rows[id] == start.rows[id]
  {
    assert RowVerified(start, s, cfg, head, rest, id);
  }

  /** `t` is `s` with the row of `id` made truthful and its news told. */
  ghost predicate Judges(s: State, t: State, cfg: Settings, head: nat, id: DepositId)
  {
    && id in s.rows && t.rows.Keys == s.rows.Keys && t.chain == s.chain && s.log <= t.log
    && (forall o :: o in s.rows && o != id ==> t.rows[o] == s.rows[o])
    && Truthful(s.chain, cfg, head, id, s.rows[id], t.rows[id]) && Told(t.log, id, s.rows[id], t.rows[id])
  }

  lemma RowsVerified(start: State, s: State, t: State, cfg: Settings, head: nat, rest: set<DepositId>, id: DepositId)
    requires s.rows.Keys == start.rows.Keys && id in s.rows && t.rows.Keys == s.rows.Keys && t.chain == s.chain
    requires s.log <= t.log && Told(t.log, id, start.rows[id], t.rows[id])
    requires forall o :: o in s.rows && o != id ==> t.rows[o] == s.rows[o]
    requires forall o :: o in s.rows ==> RowVerified(start, s, cfg, head, rest, o)
    requires OnWatchlist(start, cfg, id, head) && Truthful(s.chain, cfg, head, id, start.rows[id], t.rows[id])
    ensures forall o :: o in t.rows ==> RowVerified(start, t, cfg, head, rest - {id}, o)
  {
    forall o | o in t.rows ensures RowVerified(start, t, cfg, head, rest - {id}, o) {
      assert RowVerified(start, s, cfg, head, rest, o);
    }
  }

  /** The row is REORGED exactly when no canonical block holds the log; a live row points at the block that does. */
  ghost predicate Truthful(c: Chain, cfg: Settings, head: nat, id: DepositId, before: Row, row: Row)
  {
    && (row.status.Reorged? <==> forall h :: OnPath(c, h) ==> !HasLog(c.blocks[h], id))
    && (!row.status.Reorged? ==>
          && OnPath(c, row.hash) && HasLog(c.blocks[row.hash], id) && c.blocks[row.hash].number == row.number
          && row.confirmations == Max(0, head - row.number + 1)
          && (row.status.Confirmed? <==> before.status.Confirmed? || row.confirmations >= cfg.required))
  }

  /** Terms stay, a lost row keeps its block; a loss, a lost confirmation and a new one are in the log. */
  ghost predicate Told(log: seq<Event>, id: DepositId, before: Row, row: Row)
  {
    && row.sender == before.sender && row.recipient == before.recipient && row.amount == before.amount
    && (row.status.Reorged? ==> row == before.(status := Reorged))
    && (row.status.Reorged? && before.status.Confirmed? ==>
          DepositReorged(id, before.hash, before.recipient, "USDT", before.amount, true) in log)
    && (row.status.Reorged? ==> Emitted(log, ReorgedId(id, before.hash)))
    && (row.status.Confirmed? && before.status.Detected? ==>
          DepositConfirmed(id, row.hash, before.recipient, "USDT", before.amount) in log)
  }

  lemma EnqueueTells(log: seq<Event>, e: Event)
    ensures log <= Enqueue(log, e) && Emitted(Enqueue(log, e), Id(e))
    ensures !Emitted(log, Id(e)) ==> e in Enqueue(log, e)
  {
    EnqueueOnce(log, e);
  }

  lemma AbsentIsTold(s: State, cfg: Settings, id: DepositId, head: nat)
    requires DC.Inv(s) && Live(s, id)
    ensures var t := CommitWatch(s, cfg, id, head, Absent);
            s.log <= t.log && Told(t.log, id, s.rows[id], t.rows[id])
  {
    EnqueueTells(s.log, ReorgedEvent(id, s.rows[id]));
  }

  lemma PresentIsTold(s: State, cfg: Settings, id: DepositId, head: nat, number: nat, hash: Hash)
    requires Live(s, id) && DC.CanCommit(s, id, number, hash)
    ensures var t := CommitWatch(s, cfg, id, head, Present(number, hash));
            s.log <= t.log && Told(t.log, id, s.rows[id], t.rows[id])
  {
    EnqueueTells(s.log, ConfirmedEvent(id, Repointed(s.rows[id], head, number, hash)));
  }

  lemma CheckKeepsInv(s: State, cfg: Settings, id: DepositId, head: nat)
    requires DC.Inv(s) && Atomic.Quiet(s) && OnWatchlist(s, cfg, id, head)
    ensures DC.Inv(CommitWatch(s, cfg, id, head, TornVerdict(s, id, s.chain.path, s.chain.path)))
  {
    SteadyVerdict(s, id);
    var v := Atomic.VerdictNow(s, id);
    var j := s.(watch := Judged(id, head, v));
    Atomic.WatchTickJudges(s, cfg, id, head);
    DC.StepKeeps(j, cfg, WatchCommit);
    assert Next(j, cfg, WatchCommit) == CommitWatch(s, cfg, id, head, v);
  }

  lemma CheckTells(s: State, cfg: Settings, id: DepositId, head: nat)
    requires DC.Inv(s) && Atomic.Quiet(s) && OnWatchlist(s, cfg, id, head)
    ensures var t := CommitWatch(s, cfg, id, head, TornVerdict(s, id, s.chain.path, s.chain.path));
            Judges(s, t, cfg, head, id)
  {
    SteadyVerdict(s, id);
    if Atomic.VerdictNow(s, id).Absent? {
      AbsentTells(s, cfg, id, head);
    } else {
      Atomic.WatchTickJudges(s, cfg, id, head);
      PresentTells(s, cfg, id, head);
    }
  }

  lemma AbsentTells(s: State, cfg: Settings, id: DepositId, head: nat)
    requires DC.Inv(s) && Live(s, id) && Atomic.VerdictNow(s, id).Absent?
    ensures Judges(s, CommitWatch(s, cfg, id, head, Absent), cfg, head, id)
  {
    forall h | OnPath(s.chain, h) ensures !HasLog(s.chain.blocks[h], id) {
      Atomic.AbsentMeansAbsent(s, id, h);
    }
    AbsentIsTold(s, cfg, id, head);
  }

  lemma PresentTells(s: State, cfg: Settings, id: DepositId, head: nat)
    requires DC.Inv(s) && Live(s, id) && Atomic.VerdictNow(s, id).Present?
    requires DC.WatchOk(s.(watch := Judged(id, head, Atomic.VerdictNow(s, id))))
    ensures Judges(s, CommitWatch(s, cfg, id, head, Atomic.VerdictNow(s, id)), cfg, head, id)
  {
    var v := Atomic.VerdictNow(s, id);
    PresentIsCanonical(s, id, head);
    assert DC.CanCommit(s.(watch := Judged(id, head, v)), id, v.number, v.hash);
    PresentIsTold(s, cfg, id, head, v.number, v.hash);
    PresentIsTruthful(s, cfg, id, head, v.number, v.hash);
  }

  lemma PresentIsTruthful(s: State, cfg: Settings, id: DepositId, head: nat, number: nat, hash: Hash)
    requires Live(s, id) && OnPath(s.chain, hash) && HasLog(s.chain.blocks[hash], id)
    requires s.chain.blocks[hash].number == number
    ensures var t := CommitWatch(s, cfg, id, head, Present(number, hash));
            && t.rows.Keys == s.rows.Keys && t.chain == s.chain
            && (forall o :: o in s.rows && o != id ==> t.rows[o] == s.rows[o])
            && Truthful(s.chain, cfg, head, id, s.rows[id], t.rows[id])
  {
  }

  lemma PresentIsCanonical(s: State, id: DepositId, head: nat)
    requires DC.Inv(s) && id in s.rows && Atomic.VerdictNow(s, id).Present?
    requires DC.WatchOk(s.(watch := Judged(id, head, Atomic.VerdictNow(s, id))))
    ensures var v := Atomic.VerdictNow(s, id);
            OnPath(s.chain, v.hash) && HasLog(s.chain.blocks[v.hash], id) && s.chain.blocks[v.hash].number == v.number
  {
    var v := Atomic.VerdictNow(s, id);
    assert DC.CanCommit(s.(watch := Judged(id, head, v)), id, v.number, v.hash);
    assert s.chain.path[v.number - 1].hash == v.hash;
  }

  /** The loop that sets aside internal movements. */
  method SplitLogs(logs: seq<LogEntry>, ours: set<Addr>) returns (external: seq<LogEntry>, internal: nat)
    ensures external == NotOurs(logs, ours) && |external| + internal == |logs|
  {
    external, internal := [], 0;
    for i := 0 to |logs|
      invariant external == NotOurs(logs[..i], ours) && |external| + internal == i
    {
      assert logs[..i + 1][..i] == logs[..i];
      if logs[i].sender in ours {
        internal := internal + 1;
      } else {
        external := external + [logs[i]];
      }
    }
    assert logs[..|logs|] == logs;
  }
}
