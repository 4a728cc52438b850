/**
  * Ticks whose reads see different chains, because the node moves between them. What a tick computes
  * from the views it was shown is a run of the protocol with the node's steps in between.
  */
module TornTicks {
  import opened Events
  import opened ChainModel
  import opened Deposits
  import DC = DepositConservation
  import DepositHistory
  import Atomic = AtomicTicks

  // ---- what a tick computes from its views ----

  function ScanOf(s: State, cfg: Settings, head: seq<Block>, guard: seq<Block>): Scan
  {
    GuardRead(s.(chain := s.chain.(path := guard)), cfg, |head|)
  }

  function TornScan(
      s: State, cfg: Settings, head: seq<Block>, guard: seq<Block>, logs: seq<Block>, tip: seq<Block>): State
  {
    match ScanOf(s, cfg, head, guard)
    case Ranged(first, last) =>
      if |head| == 0 || first < 1 || last < first then s
      else CommitScan(s, first, last, s.addresses, Blocks(logs, first, last), tip[..Min(last, |tip|)])
    case _ => s
  }

  function TornVerdict(s: State, id: DepositId, receipt: seq<Block>, logs: seq<Block>): Verdict
    requires id in s.rows
  {
    match ReceiptIndex(receipt, id.tx)
    case None => Absent
    case Some(i) =>
      if receipt[i].hash == s.rows[id].hash then Present(i + 1, receipt[i].hash)
      else if i < |logs| && HasLogTo(logs[i], id, s.rows[id].recipient) then Present(i + 1, logs[i].hash)
      else Absent
  }

  // ---- runs with the node's steps in between ----

  function ChainSteps(a: seq<NodeStep>): seq<Step>
  {
    if a == [] then [] else [ChainStep(a[0])] + ChainSteps(a[1..])
  }

  lemma {:induction false} ChainRun(s: State, cfg: Settings, a: seq<NodeStep>)
    requires ValidNodeRun(s.chain, a)
    ensures ValidRun(s, cfg, ChainSteps(a)) && Run(s, cfg, ChainSteps(a)) == s.(chain := NodeRun(s.chain, a))
    decreases |a|
  {
    if a != [] {
      var s1 := Next(s, cfg, ChainStep(a[0]));
      ChainRun(s1, cfg, a[1..]);
      assert ([ChainStep(a[0])] + ChainSteps(a[1..]))[1..] == ChainSteps(a[1..]);
    }
  }

  ghost predicate Reaches(s: State, cfg: Settings, steps: seq<Step>, t: State)
  {
    ValidRun(s, cfg, steps) && Run(s, cfg, steps) == t
  }

  lemma ThenStep(s: State, cfg: Settings, steps: seq<Step>, t: State, step: Step, u: State)
    requires Reaches(s, cfg, steps, t) && Enabled(t, cfg, step) && Next(t, cfg, step) == u
    ensures Reaches(s, cfg, steps + [step], u)
  {
    RunSnoc(s, cfg, steps, step);
  }

  lemma ThenChain(s: State, cfg: Settings, steps: seq<Step>, t: State, a: seq<NodeStep>)
    requires Reaches(s, cfg, steps, t) && ValidNodeRun(t.chain, a)
    ensures Reaches(s, cfg, steps + ChainSteps(a), t.(chain := NodeRun(t.chain, a)))
  {
    ChainRun(t, cfg, a);
    RunConcat(s, cfg, steps, ChainSteps(a));
  }

  // ---- the scanner ----

  /** What the node does after each of the four reads. */
  datatype Moves = Moves(head: seq<NodeStep>, guard: seq<NodeStep>, logs: seq<NodeStep>, tip: seq<NodeStep>)

  function AfterHead(c: Chain, m: Moves): Chain { NodeRun(c, m.head) }
  function AfterGuard(c: Chain, m: Moves): Chain { NodeRun(AfterHead(c, m), m.guard) }
  function AfterLogs(c: Chain, m: Moves): Chain { NodeRun(AfterGuard(c, m), m.logs) }
  function AfterTip(c: Chain, m: Moves): Chain { NodeRun(AfterLogs(c, m), m.tip) }

  ghost predicate ValidMoves(c: Chain, m: Moves)
  {
    && ValidNodeRun(c, m.head) && ValidNodeRun(AfterHead(c, m), m.guard)
    && ValidNodeRun(AfterGuard(c, m), m.logs) && ValidNodeRun(AfterLogs(c, m), m.tip)
  }

  function GuardSteps(m: Moves): seq<Step>
  {
    [ScanHead] + ChainSteps(m.head) + [ScanGuard] + ChainSteps(m.guard)
  }

  /** The steps of a tick: it may find nothing to do before it starts or after its guard. */
  function ScanSteps(s: State, cfg: Settings, m: Moves): seq<Step>
  {
    if |s.chain.path| == 0 then ChainSteps(m.head) + ChainSteps(m.guard) + ChainSteps(m.logs) + ChainSteps(m.tip)
    else if ScanOf(s, cfg, s.chain.path, AfterHead(s.chain, m).path).Ranged? then
      GuardSteps(m) + [ScanLogs] + ChainSteps(m.logs) + [ScanTip] + ChainSteps(m.tip) + [ScanCommit]
    else GuardSteps(m) + ChainSteps(m.logs) + ChainSteps(m.tip)
  }

  /** Writing the deposits reads neither the chain nor the tick in progress. */
  lemma {:induction false} UpsertAllApart(s: State, es: seq<LogEntry>, scan: Scan, c: Chain)
    ensures UpsertAll(s.(scan := scan, chain := c), es) == UpsertAll(s, es).(scan := scan, chain := c)
  {
    if es != [] {
      UpsertAllApart(s, es[..|es| - 1], scan, c);
    }
  }

  lemma GuardReaches(s: State, cfg: Settings, m: Moves)
    requires s.scan.ScanIdle? && |s.chain.path| > 0 && ValidMoves(s.chain, m)
    ensures var range := ScanOf(s, cfg, s.chain.path, AfterHead(s.chain, m).path);
            Reaches(s, cfg, GuardSteps(m), s.(chain := AfterGuard(s.chain, m), scan := range))
  {
    var n := |s.chain.path|;
    var read := s.(scan := HeadRead(n));
    Atomic.OneStep(s, cfg, ScanHead);
    ThenChain(s, cfg, [ScanHead], read, m.head);
    var moved := read.(chain := AfterHead(s.chain, m));
    GuardReadsPath(s, cfg, AfterHead(s.chain, m), n);
    var guarded := moved.(scan := ScanOf(s, cfg, s.chain.path, AfterHead(s.chain, m).path));
    ThenStep(s, cfg, [ScanHead] + ChainSteps(m.head), moved, ScanGuard, guarded);
    ThenChain(s, cfg, [ScanHead] + ChainSteps(m.head) + [ScanGuard], guarded, m.guard);
  }

  lemma GuardReadsPath(s: State, cfg: Settings, c: Chain, n: nat)
    ensures GuardRead(s.(scan := HeadRead(n), chain := c), cfg, n) ==
            GuardRead(s.(chain := s.chain.(path := c.path)), cfg, n)
  {
  }

  /** From the guard's range to the state just before the commit. */
  lemma TipReaches(s: State, cfg: Settings, m: Moves, first: nat, last: nat)
    requires s.scan.ScanIdle? && |s.chain.path| > 0 && ValidMoves(s.chain, m)
    requires ScanOf(s, cfg, s.chain.path, AfterHead(s.chain, m).path) == Ranged(first, last) && 1 <= first <= last
    ensures var logs, tip := AfterGuard(s.chain, m).path, AfterLogs(s.chain, m).path;
            Reaches(s, cfg, GuardSteps(m) + [ScanLogs] + ChainSteps(m.logs) + [ScanTip] + ChainSteps(m.tip),
                    s.(chain := AfterTip(s.chain, m),
                       scan := TipRead(first, last, s.addresses, Blocks(logs, first, last), tip[..Min(last, |tip|)])))
  {
    var logs, tip := AfterGuard(s.chain, m).path, AfterLogs(s.chain, m).path;
    var batch := Blocks(logs, first, last);
    GuardReaches(s, cfg, m);
    var guarded := s.(chain := AfterGuard(s.chain, m), scan := Ranged(first, last));
    var read := guarded.(scan := LogsRead(first, last, s.addresses, batch));
    ThenStep(s, cfg, GuardSteps(m), guarded, ScanLogs, read);
    ThenChain(s, cfg, GuardSteps(m) + [ScanLogs], read, m.logs);
    var moved := read.(chain := AfterLogs(s.chain, m));
    var tipped := moved.(scan := TipRead(first, last, s.addresses, batch, tip[..Min(last, |tip|)]));
    ThenStep(s, cfg, GuardSteps(m) + [ScanLogs] + ChainSteps(m.logs), moved, ScanTip, tipped);
    ThenChain(s, cfg, GuardSteps(m) + [ScanLogs] + ChainSteps(m.logs) + [ScanTip], tipped, m.tip);
  }

  lemma CommitApart(s: State, cfg: Settings, c: Chain, first: nat, last: nat, batch: seq<Block>, view: seq<Block>)
    ensures Next(s.(chain := c, scan := TipRead(first, last, s.addresses, batch, view)), cfg, ScanCommit) ==
            CommitScan(s, first, last, s.addresses, batch, view).(chain := c)
  {
    UpsertAllApart(s, Entries(batch, s.addresses), TipRead(first, last, s.addresses, batch, view), c);
  }

  /** A scanner tick over torn reads is a run of the protocol. */
  lemma TornScanIsRun(s: State, cfg: Settings, m: Moves)
    requires s.scan.ScanIdle? && ValidMoves(s.chain, m)
    ensures Reaches(s, cfg, ScanSteps(s, cfg, m),
                    TornScan(s, cfg, s.chain.path, AfterHead(s.chain, m).path, AfterGuard(s.chain, m).path,
                             AfterLogs(s.chain, m).path).(chain := AfterTip(s.chain, m)))
  {
    if |s.chain.path| == 0 {
      NothingToScan(s, cfg, m);
    } else {
      var g := ScanOf(s, cfg, s.chain.path, AfterHead(s.chain, m).path);
      if g.Ranged? {
        var logs, tip := AfterGuard(s.chain, m).path, AfterLogs(s.chain, m).path;
        var batch, view := Blocks(logs, g.first, g.last), tip[..Min(g.last, |tip|)];
        TipReaches(s, cfg, m, g.first, g.last);
        CommitApart(s, cfg, AfterTip(s.chain, m), g.first, g.last, batch, view);
        ThenStep(s, cfg, GuardSteps(m) + [ScanLogs] + ChainSteps(m.logs) + [ScanTip] + ChainSteps(m.tip),
                 s.(chain := AfterTip(s.chain, m), scan := TipRead(g.first, g.last, s.addresses, batch, view)),
                 ScanCommit, CommitScan(s, g.first, g.last, s.addresses, batch, view).(chain := AfterTip(s.chain, m)));
      } else {
        GuardReaches(s, cfg, m);
        ThenChain(s, cfg, GuardSteps(m), s.(chain := AfterGuard(s.chain, m), scan := g), m.logs);
        ThenChain(s, cfg, GuardSteps(m) + ChainSteps(m.logs), s.(chain := AfterLogs(s.chain, m), scan := g), m.tip);
      }
    }
  }

  lemma NothingToScan(s: State, cfg: Settings, m: Moves)
    requires ValidMoves(s.chain, m)
    ensures Reaches(s, cfg, ChainSteps(m.head) + ChainSteps(m.guard) + ChainSteps(m.logs) + ChainSteps(m.tip),
                    s.(chain := AfterTip(s.chain, m)))
  {
    ChainRun(s, cfg, m.head);
    ThenChain(s, cfg, ChainSteps(m.head), s.(chain := AfterHead(s.chain, m)), m.guard);
    ThenChain(s, cfg, ChainSteps(m.head) + ChainSteps(m.guard), s.(chain := AfterGuard(s.chain, m)), m.logs);
    ThenChain(s, cfg, ChainSteps(m.head) + ChainSteps(m.guard) + ChainSteps(m.logs),
              s.(chain := AfterLogs(s.chain, m)), m.tip);
  }

  lemma TornScanKeeps(s: State, cfg: Settings, m: Moves)
    requires ValidRun(s, cfg, ScanSteps(s, cfg, m))
    ensures DC.Inv(s) ==> DC.Inv(Run(s, cfg, ScanSteps(s, cfg, m)))
    ensures DepositHistory.History(s) ==> DepositHistory.History(Run(s, cfg, ScanSteps(s, cfg, m)))
  {
    if DC.Inv(s) {
      DC.RunKeeps(s, cfg, ScanSteps(s, cfg, m));
    }
    if DepositHistory.History(s) {
      Atomic.RunKeepsHistory(s, cfg, ScanSteps(s, cfg, m));
    }
  }

  // ---- the watcher ----

  /** The steps of a check: the second read happens only if the transaction moved. */
  function CheckSteps(s: State, id: DepositId, head: nat, a: seq<NodeStep>, b: seq<NodeStep>): seq<Step>
    requires id in s.rows
  {
    var logs := if ReadReceipt(s, id, head).Moved? then [WatchLogs] else [];
    [WatchReceipt(id, head)] + ChainSteps(a) + logs + ChainSteps(b) + [WatchCommit]
  }

  lemma CheckReaches(s: State, cfg: Settings, id: DepositId, head: nat, a: seq<NodeStep>)
    requires s.watch.WatchIdle? && OnWatchlist(s, cfg, id, head) && ValidNodeRun(s.chain, a)
    ensures var logs := if ReadReceipt(s, id, head).Moved? then [WatchLogs] else [];
            var c := NodeRun(s.chain, a);
            Reaches(s, cfg, [WatchReceipt(id, head)] + ChainSteps(a) + logs,
                    s.(chain := c, watch := Judged(id, head, TornVerdict(s, id, s.chain.path, c.path))))
  {
    var w := ReadReceipt(s, id, head);
    var c := NodeRun(s.chain, a);
    Atomic.OneStep(s, cfg, WatchReceipt(id, head));
    ThenChain(s, cfg, [WatchReceipt(id, head)], s.(watch := w), a);
    var moved := s.(watch := w, chain := c);
    var judged := moved.(watch := Judged(id, head, TornVerdict(s, id, s.chain.path, c.path)));
    if w.Moved? {
      ThenStep(s, cfg, [WatchReceipt(id, head)] + ChainSteps(a), moved, WatchLogs, judged);
    } else {
      assert [WatchReceipt(id, head)] + ChainSteps(a) + [] == [WatchReceipt(id, head)] + ChainSteps(a);
    }
  }

  lemma WatchCommitApart(s: State, cfg: Settings, id: DepositId, head: nat, v: Verdict, c: Chain)
    requires s.watch.WatchIdle? && id in s.rows
    ensures Next(s.(chain := c, watch := Judged(id, head, v)), cfg, WatchCommit) ==
            CommitWatch(s, cfg, id, head, v).(chain := c)
  {
  }

  /** A watcher check over torn reads is a run of the protocol. */
  lemma TornCheckIsRun(s: State, cfg: Settings, id: DepositId, head: nat, a: seq<NodeStep>, b: seq<NodeStep>)
    requires s.watch.WatchIdle? && OnWatchlist(s, cfg, id, head)
    requires ValidNodeRun(s.chain, a) && ValidNodeRun(NodeRun(s.chain, a), b)
    ensures var v := TornVerdict(s, id, s.chain.path, NodeRun(s.chain, a).path);
            Reaches(s, cfg, CheckSteps(s, id, head, a, b),
                    CommitWatch(s, cfg, id, head, v).(chain := NodeRun(NodeRun(s.chain, a), b)))
  {
    var logs := if ReadReceipt(s, id, head).Moved? then [WatchLogs] else [];
    var v := TornVerdict(s, id, s.chain.path, NodeRun(s.chain, a).path);
    var c := NodeRun(NodeRun(s.chain, a), b);
    CheckReaches(s, cfg, id, head, a);
    var read := [WatchReceipt(id, head)] + ChainSteps(a) + logs;
    ThenChain(s, cfg, read, s.(chain := NodeRun(s.chain, a), watch := Judged(id, head, v)), b);
    WatchCommitApart(s, cfg, id, head, v, c);
    ThenStep(s, cfg, read + ChainSteps(b), s.(chain := c, watch := Judged(id, head, v)), WatchCommit,
             CommitWatch(s, cfg, id, head, v).(chain := c));
  }

  lemma TornCheckKeeps(s: State, cfg: Settings, id: DepositId, head: nat, a: seq<NodeStep>, b: seq<NodeStep>)
    requires id in s.rows && ValidRun(s, cfg, CheckSteps(s, id, head, a, b))
    ensures DC.Inv(s) ==> DC.Inv(Run(s, cfg, CheckSteps(s, id, head, a, b)))
  {
    if DC.Inv(s) {
      DC.RunKeeps(s, cfg, CheckSteps(s, id, head, a, b));
    }
  }

  // ---- a still chain ----

  /** A tick during which the chain stands still is the atomic tick of the completeness theorem. */
  lemma SteadyScan(s: State, cfg: Settings)
    requires Atomic.Quiet(s) && |s.chain.path| > 0
    ensures TornScan(s, cfg, s.chain.path, s.chain.path, s.chain.path, s.chain.path) ==
            Atomic.AtomicNext(s, cfg, Atomic.ScanTick)
  {
    assert s.(chain := s.chain.(path := s.chain.path)) == s;
    var g := GuardRead(s, cfg, |s.chain.path|);
    if g.Ranged? {
      var r := Atomic.ReadsOf(s, cfg);
      var es := Entries(Blocks(s.chain.path, g.first, g.last), s.addresses);
      UpsertAllApart(s, es, r.scan, s.chain);
      DepositHistory.UpsertAllTables(s, es);
      assert s.(scan := r.scan, chain := s.chain) == r;
    }
  }

  /** Likewise for one check of the watcher. */
  lemma SteadyVerdict(s: State, id: DepositId)
    requires id in s.rows
    ensures TornVerdict(s, id, s.chain.path, s.chain.path) == Atomic.VerdictNow(s, id)
  {
  }
}
