/** Ticks during which the chain stands still: the only condition left is the depth of the reorgs between them. */
module AtomicTicks {
  import opened Events
  import opened ChainModel
  import opened Deposits
  import opened DepositHistory
  import opened DepositCompleteness
  import DepositConservation

  // ---- an undisturbed tick: the reads agree exactly when no reorg was deeper than the safety margin ----

  /** The chain up to the height the scanner restarts from is the one it scanned. */
  ghost predicate ForkIsShallow(s: State, cfg: Settings)
  {
    var n := ScanBase(s, cfg);
    n <= |s.chain.path| && n <= |s.base| && s.chain.path[..n] == s.base[..n]
  }

  /** The four reads of one tick, with the chain standing still. */
  ghost function ReadsOf(s: State, cfg: Settings): State
    requires GuardRead(s, cfg, |s.chain.path|).Ranged?
  {
    var g := GuardRead(s, cfg, |s.chain.path|);
    s.(scan := TipRead(g.first, g.last, s.addresses, Blocks(s.chain.path, g.first, g.last),
                       s.chain.path[..Min(g.last, |s.chain.path|)]))
  }

  lemma UndisturbedTick(s: State, cfg: Settings)
    requires Complete(s) && s.scan.ScanIdle? && GuardRead(s, cfg, |s.chain.path|).Ranged?
    ensures TickReadsAgree(ReadsOf(s, cfg)) <==> ForkIsShallow(s, cfg)
    ensures !TipMoved(s) ==> ForkIsShallow(s, cfg)
  {
    var g := GuardRead(s, cfg, |s.chain.path|);
    SteadyAgree(s.chain.blocks, s.base, s.chain.path, g.first, g.last);
    if !TipMoved(s) {
      UnmovedTip(s);
    }
  }

  lemma SteadyAgree(blocks: map<Hash, Block>, base: seq<Block>, path: seq<Block>, first: nat, last: nat)
    requires Linked(path) && Stored(path, blocks) && Linked(base) && Stored(base, blocks)
    requires 1 <= first <= last <= |path|
    ensures Agree(base, first, last, Blocks(path, first, last), path[..Min(last, |path|)]) <==>
            first - 1 <= |base| && path[..first - 1] == base[..first - 1]
  {
    SteadyReads(base, path, first, last);
    if first == 1 {
      assert path[..0] == base[..0];
    } else if first - 1 <= |base| {
      SameHashSamePrefix(blocks, base, path, first - 1);
    }
  }

  lemma SteadyReads(base: seq<Block>, path: seq<Block>, first: nat, last: nat)
    requires 1 <= first <= last <= |path|
    ensures Agree(base, first, last, Blocks(path, first, last), path[..Min(last, |path|)]) <==>
            (first == 1 || (first - 1 <= |base| && path[first - 2].hash == base[first - 2].hash))
  {
    var view := path[..last];
    var batch := Blocks(path, first, last);
    assert batch[|batch| - 1] == path[last - 1] == view[last - 1];
    assert first > 1 ==> view[first - 2] == path[first - 2];
  }

  lemma SameHashSamePrefix(blocks: map<Hash, Block>, base: seq<Block>, path: seq<Block>, n: nat)
    requires Linked(path) && Stored(path, blocks) && Linked(base) && Stored(base, blocks)
    requires 1 <= n <= |path| && n <= |base|
    ensures path[n - 1].hash == base[n - 1].hash <==> path[..n] == base[..n]
  {
    if path[n - 1].hash == base[n - 1].hash {
      HashFixesPrefix(path, base, blocks, n);
    }
    if path[..n] == base[..n] {
      assert path[n - 1] == path[..n][n - 1] == base[..n][n - 1];
    }
  }

  // ---- atomic ticks: the only hypothesis left is the depth of the reorgs ----

  datatype AtomicStep =
    | Node(step: NodeStep)
    | NewAddress(address: Addr)
    | ScanTick
    | WatchTick(id: DepositId, head: nat)

  /** What the watcher concludes when all its reads see the chain as it is now. */
  function VerdictNow(s: State, id: DepositId): Verdict
    requires id in s.rows
  {
    match ReadReceipt(s, id, 0)
    case Judged(_, _, v) => v
    case Moved(_, _, height) => ReadLogs(s, id, 0, height).verdict
    case WatchIdle => Absent
  }

  predicate Scans(s: State, cfg: Settings, step: AtomicStep)
  {
    step.ScanTick? && GuardRead(s, cfg, |s.chain.path|).Ranged?
  }

  ghost predicate AtomicEnabled(s: State, cfg: Settings, step: AtomicStep)
  {
    match step
    case Node(c) => NodeEnabled(s.chain, c)
    case NewAddress(_) => true
    case ScanTick => true
    case WatchTick(id, head) => OnWatchlist(s, cfg, id, head)
  }

  ghost function AtomicNext(s: State, cfg: Settings, step: AtomicStep): State
    requires AtomicEnabled(s, cfg, step)
  {
    match step
    case Node(c) => s.(chain := NodeNext(s.chain, c))
    case NewAddress(a) => s.(addresses := s.addresses + {a})
    case ScanTick =>
      if GuardRead(s, cfg, |s.chain.path|).Ranged? then Next(ReadsOf(s, cfg), cfg, ScanCommit) else s
    case WatchTick(id, head) => CommitWatch(s, cfg, id, head, VerdictNow(s, id))
  }

  lemma OneStep(s: State, cfg: Settings, z: Step)
    requires Enabled(s, cfg, z)
    ensures ValidRun(s, cfg, [z]) && Run(s, cfg, [z]) == Next(s, cfg, z)
  {
    var steps := [z];
    assert steps[1..] == [];
    assert Run(s, cfg, steps) == Run(Next(s, cfg, steps[0]), cfg, steps[1..]);
  }

  lemma FourSteps(s: State, cfg: Settings, w: Step, x: Step, y: Step, z: Step)
    requires Enabled(s, cfg, w)
    requires Enabled(Next(s, cfg, w), cfg, x)
    requires Enabled(Next(Next(s, cfg, w), cfg, x), cfg, y)
    requires Enabled(Next(Next(Next(s, cfg, w), cfg, x), cfg, y), cfg, z)
    ensures ValidRun(s, cfg, [w, x, y, z])
    ensures Run(s, cfg, [w, x, y, z]) == Next(Next(Next(Next(s, cfg, w), cfg, x), cfg, y), cfg, z)
  {
    var s1 := Next(s, cfg, w);
    var s2 := Next(s1, cfg, x);
    var s3 := Next(s2, cfg, y);
    OneStep(s3, cfg, z);
    assert [y, z][1..] == [z];
    assert ValidRun(s2, cfg, [y, z]) && Run(s2, cfg, [y, z]) == Next(s3, cfg, z);
    assert [x, y, z][1..] == [y, z];
    assert ValidRun(s1, cfg, [x, y, z]) && Run(s1, cfg, [x, y, z]) == Next(s3, cfg, z);
    assert [w, x, y, z][1..] == [x, y, z];
  }

  /** The atomic scanner tick is the four reads of the code in a row. */
  lemma ReadsOfIsFourSteps(s: State, cfg: Settings)
    requires s.scan.ScanIdle? && |s.chain.path| > 0 && GuardRead(s, cfg, |s.chain.path|).Ranged?
    ensures ValidRun(s, cfg, [ScanHead, ScanGuard, ScanLogs, ScanTip])
    ensures Run(s, cfg, [ScanHead, ScanGuard, ScanLogs, ScanTip]) == ReadsOf(s, cfg)
  {
    var s1 := Next(s, cfg, ScanHead);
    assert GuardRead(s1, cfg, s1.scan.head) == GuardRead(s, cfg, |s.chain.path|);
    FourSteps(s, cfg, ScanHead, ScanGuard, ScanLogs, ScanTip);
  }

  lemma {:induction false} RunKeepsHistory(s: State, cfg: Settings, steps: seq<Step>)
    requires History(s) && ValidRun(s, cfg, steps)
    ensures History(Run(s, cfg, steps))
    decreases |steps|
  {
    if steps != [] {
      StepKeepsHistory(s, cfg, steps[0]);
      RunKeepsHistory(Next(s, cfg, steps[0]), cfg, steps[1..]);
    }
  }

  /** A deposit the watcher finds absent is in no canonical block at that moment. */
  lemma AbsentMeansAbsent(s: State, id: DepositId, h: Hash)
    requires DepositConservation.Inv(s) && Live(s, id) && VerdictNow(s, id).Absent?
    requires OnPath(s.chain, h)
    ensures !HasLog(s.chain.blocks[h], id)
  {
    if HasLog(s.chain.blocks[h], id) {
      DepositConservation.CanonicalReceipt(s.chain, id, h);
      assert DepositConservation.RowOk(s.chain, id, s.rows[id]);
      var x :| x in s.chain.blocks[h].txs && x.tx == id.tx && x.logIndex == Some(id.logIndex);
      assert FromMempool(s.chain.blocks[h].txs, s.chain.submitted);
      assert HasLogTo(s.chain.blocks[h], id, s.rows[id].recipient);
    }
  }

  ghost predicate Quiet(s: State)
  {
    s.scan.ScanIdle? && s.watch.WatchIdle?
  }

  /** A watcher tick whose reads and commit see one chain, as steps of the interleaved machine. */
  lemma WatchTickJudges(s: State, cfg: Settings, id: DepositId, head: nat)
    requires DepositConservation.Inv(s) && Quiet(s) && OnWatchlist(s, cfg, id, head)
    ensures DepositConservation.Inv(s.(watch := Judged(id, head, VerdictNow(s, id))))
  {
    var m := Next(s, cfg, WatchReceipt(id, head));
    DepositConservation.StepKeeps(s, cfg, WatchReceipt(id, head));
    if m.watch.Moved? {
      DepositConservation.StepKeeps(m, cfg, WatchLogs);
    }
    VerdictOfReads(s, cfg, id, head);
  }

  lemma VerdictOfReads(s: State, cfg: Settings, id: DepositId, head: nat)
    requires s.watch.WatchIdle? && OnWatchlist(s, cfg, id, head)
    ensures var m := Next(s, cfg, WatchReceipt(id, head));
            (if m.watch.Moved? then Next(m, cfg, WatchLogs) else m) == s.(watch := Judged(id, head, VerdictNow(s, id)))
  {
  }

  lemma WatchTickSteps(s: State, cfg: Settings, id: DepositId, head: nat)
    requires DepositConservation.Inv(s) && Complete(s) && Quiet(s) && OnWatchlist(s, cfg, id, head)
    ensures var t := CommitWatch(s, cfg, id, head, VerdictNow(s, id));
            DepositConservation.Inv(t) && Complete(t) && Quiet(t)
  {
    var v := VerdictNow(s, id);
    var j := s.(watch := Judged(id, head, v));
    WatchTickJudges(s, cfg, id, head);
    assert Next(j, cfg, WatchCommit) == CommitWatch(s, cfg, id, head, v);
    DepositConservation.StepKeeps(j, cfg, WatchCommit);
    AtomicVerdictIsTrue(s, id, head);
    CompleteIgnoresWatch(s, j);
    StepKeepsComplete(j, cfg, WatchCommit);
  }

  lemma AtomicVerdictIsTrue(s: State, id: DepositId, head: nat)
    requires DepositConservation.Inv(s) && Live(s, id)
    ensures VerdictStillTrue(s.(watch := Judged(id, head, VerdictNow(s, id))))
  {
    var v := VerdictNow(s, id);
    forall r | v.Absent? && r in s.scans && OnPath(s.chain, r.hash)
      ensures !ExternalLog(s.chain.blocks[r.hash], id, r.watched)
    {
      AbsentMeansAbsent(s, id, r.hash);
    }
  }

  lemma CompleteIgnoresWatch(s: State, t: State)
    requires Complete(s) && t == s.(watch := t.watch)
    ensures Complete(t)
  {
    SameScan(s, t);
    SameRows(s, t);
  }

  /** The four reads change nothing but what the scanner holds in hand. */
  lemma ReadsKeep(s: State, cfg: Settings)
    requires DepositConservation.Inv(s) && History(s) && Quiet(s)
    requires |s.chain.path| > 0 && GuardRead(s, cfg, |s.chain.path|).Ranged?
    ensures DepositConservation.Inv(ReadsOf(s, cfg)) && History(ReadsOf(s, cfg))
  {
    ReadsOfIsFourSteps(s, cfg);
    DepositConservation.RunKeeps(s, cfg, [ScanHead, ScanGuard, ScanLogs, ScanTip]);
    RunKeepsHistory(s, cfg, [ScanHead, ScanGuard, ScanLogs, ScanTip]);
  }

  lemma ReadsComplete(s: State, r: State)
    requires Complete(s) && r == s.(scan := r.scan) && History(r)
    ensures Complete(r)
  {
    SameRows(s, r);
  }

  /** The commit of a tick whose reads agree. */
  lemma CommitAgreed(r: State, cfg: Settings)
    requires DepositConservation.Inv(r) && Complete(r) && r.watch.WatchIdle? && r.scan.TipRead? && TickReadsAgree(r)
    ensures var t := Next(r, cfg, ScanCommit); DepositConservation.Inv(t) && Complete(t)
  {
    assert Careful(r, ScanCommit);
    StepKeepsComplete(r, cfg, ScanCommit);
    DepositConservation.StepKeeps(r, cfg, ScanCommit);
  }

  /** What the commit writes besides the rows. */
  lemma CommitCursor(r: State, cfg: Settings)
    requires r.watch.WatchIdle? && r.scan.TipRead?
    ensures var t := Next(r, cfg, ScanCommit);
            Quiet(t) && t.chain == r.chain && t.cursor == r.scan.last && t.tip == HashAt(r.scan.view, r.scan.last)
  {
    UpsertAllTables(r, Entries(r.scan.batch, r.scan.watched));
  }

  /** After the four reads of a tick over a shallow fork, all that the commit needs holds. */
  lemma ReadyToCommit(s: State, cfg: Settings)
    requires DepositConservation.Inv(s) && Complete(s) && Quiet(s)
    requires GuardRead(s, cfg, |s.chain.path|).Ranged? && ForkIsShallow(s, cfg)
    ensures var r := ReadsOf(s, cfg); DepositConservation.Inv(r) && Complete(r) && TickReadsAgree(r)
  {
    RangeIsOnPath(s, cfg);
    ReadsKeep(s, cfg);
    ReadsComplete(s, ReadsOf(s, cfg));
    UndisturbedTick(s, cfg);
  }

  lemma RangeIsOnPath(s: State, cfg: Settings)
    requires GuardRead(s, cfg, |s.chain.path|).Ranged?
    ensures var r := ReadsOf(s, cfg);
            && |s.chain.path| > 0 && r.watch == s.watch && r.chain == s.chain && r.scan.TipRead?
            && HashAt(r.scan.view, r.scan.last) == HashAt(s.chain.path, r.scan.last)
  {
  }

  lemma ScanTickSteps(s: State, cfg: Settings)
    requires DepositConservation.Inv(s) && Complete(s) && Quiet(s)
    requires GuardRead(s, cfg, |s.chain.path|).Ranged? && ForkIsShallow(s, cfg)
    ensures var t := Next(ReadsOf(s, cfg), cfg, ScanCommit);
            && DepositConservation.Inv(t) && Complete(t) && Quiet(t)
            && t.chain == s.chain && t.tip == HashAt(t.chain.path, t.cursor)
  {
    var r := ReadsOf(s, cfg);
    RangeIsOnPath(s, cfg);
    ReadyToCommit(s, cfg);
    CommitAgreed(r, cfg);
    CommitCursor(r, cfg);
  }

  lemma AtomicKeeps(s: State, cfg: Settings, step: AtomicStep)
    requires DepositConservation.Inv(s) && Complete(s) && Quiet(s) && AtomicEnabled(s, cfg, step)
    requires Scans(s, cfg, step) ==> ForkIsShallow(s, cfg)
    ensures var t := AtomicNext(s, cfg, step); DepositConservation.Inv(t) && Complete(t) && Quiet(t)
  {
    match step
    case Node(c) =>
      DepositConservation.StepKeeps(s, cfg, ChainStep(c));
      StepKeepsComplete(s, cfg, ChainStep(c));
    case NewAddress(a) =>
      DepositConservation.StepKeeps(s, cfg, AddAddress(a));
      StepKeepsComplete(s, cfg, AddAddress(a));
    case WatchTick(id, head) => WatchTickSteps(s, cfg, id, head);
    case ScanTick =>
      if Scans(s, cfg, step) {
        ScanTickSteps(s, cfg);
      }
  }

  ghost predicate AtomicRun(s: State, cfg: Settings, steps: seq<AtomicStep>)
    decreases |steps|
  {
    steps == [] || (AtomicEnabled(s, cfg, steps[0]) && AtomicRun(AtomicNext(s, cfg, steps[0]), cfg, steps[1..]))
  }

  ghost function RunAtomic(s: State, cfg: Settings, steps: seq<AtomicStep>): State
    requires AtomicRun(s, cfg, steps)
    decreases |steps|
  {
    if steps == [] then s else RunAtomic(AtomicNext(s, cfg, steps[0]), cfg, steps[1..])
  }

  /** Every scan finds its fork no deeper than where it restarts. */
  ghost predicate ForksAreShallow(s: State, cfg: Settings, steps: seq<AtomicStep>)
    requires AtomicRun(s, cfg, steps)
    decreases |steps|
  {
    steps == [] ||
    ((Scans(s, cfg, steps[0]) ==> ForkIsShallow(s, cfg))
     && ForksAreShallow(AtomicNext(s, cfg, steps[0]), cfg, steps[1..]))
  }

  // ---- the depth of the reorgs, read off the run ----

  /** Whether, since the last scan, every reorg left the chain at least as long as cursor minus margin. */
  predicate MarginAfter(s: State, cfg: Settings, step: AtomicStep, held: bool)
  {
    match step
    case Node(Orphan(keep)) => held && keep + cfg.safety >= s.cursor
    case ScanTick => held || Scans(s, cfg, step)
    case _ => held
  }

  /** At every scan the margin was held since the scan before. */
  ghost predicate ReorgsWithinMargin(s: State, cfg: Settings, steps: seq<AtomicStep>, held: bool)
    requires AtomicRun(s, cfg, steps)
    decreases |steps|
  {
    steps == [] ||
    ((Scans(s, cfg, steps[0]) ==> held)
     && ReorgsWithinMargin(AtomicNext(s, cfg, steps[0]), cfg, steps[1..], MarginAfter(s, cfg, steps[0], held)))
  }

  /** What was scanned up to cursor minus margin is still the chain. */
  ghost predicate InMargin(s: State, cfg: Settings)
  {
    var n := Max(0, s.cursor - cfg.safety);
    n <= |s.chain.path| && n <= |s.base| && s.chain.path[..n] == s.base[..n]
  }

  lemma ShallowIffInMargin(s: State, cfg: Settings)
    requires Complete(s)
    ensures ForkIsShallow(s, cfg) <==> InMargin(s, cfg)
  {
    if !TipMoved(s) {
      UnmovedTip(s);
      PrefixOfPrefix(s.chain.path, s.base, Max(0, s.cursor - cfg.safety), s.cursor);
    }
  }

  lemma PrefixOfPrefix(p: seq<Block>, q: seq<Block>, n: nat, m: nat)
    requires n <= m <= |p| && m <= |q| && p[..m] == q[..m]
    ensures p[..n] == q[..n]
  {
    assert p[..m][..n] == p[..n] && q[..m][..n] == q[..n];
  }

  /** A fresh block is none of those scanned, so a prefix once lost does not come back. */
  lemma ChainMovesMargin(s: State, cfg: Settings, step: NodeStep)
    requires DepositConservation.Inv(s) && Complete(s) && NodeEnabled(s.chain, step)
    ensures var t := s.(chain := NodeNext(s.chain, step));
            InMargin(t, cfg) <==> InMargin(s, cfg) && (step.Orphan? ==> step.keep + cfg.safety >= s.cursor)
  {
    var n := Max(0, s.cursor - cfg.safety);
    var path, after := s.chain.path, NodeNext(s.chain, step).path;
    if step.Orphan? && n <= step.keep {
      assert after[..n] == path[..n];
    } else if step.Mine? && n <= |path| {
      assert after[..n] == path[..n];
    } else if step.Mine? && n == |path| + 1 && n <= |s.base| {
      assert after[..n][n - 1] == after[n - 1] && s.base[..n][n - 1] == s.base[n - 1];
      assert s.base[n - 1] in s.base;
    }
  }

  lemma ScanSetsMargin(s: State, cfg: Settings)
    requires DepositConservation.Inv(s) && Complete(s) && Quiet(s)
    requires GuardRead(s, cfg, |s.chain.path|).Ranged? && ForkIsShallow(s, cfg)
    ensures InMargin(Next(ReadsOf(s, cfg), cfg, ScanCommit), cfg)
  {
    var t := Next(ReadsOf(s, cfg), cfg, ScanCommit);
    ScanTickSteps(s, cfg);
    assert !TipMoved(t);
    ShallowIffInMargin(t, cfg);
    UnmovedTip(t);
  }

  lemma StepMovesMargin(s: State, cfg: Settings, step: AtomicStep)
    requires DepositConservation.Inv(s) && Complete(s) && Quiet(s) && AtomicEnabled(s, cfg, step)
    requires Scans(s, cfg, step) ==> ForkIsShallow(s, cfg)
    ensures InMargin(AtomicNext(s, cfg, step), cfg) <==> MarginAfter(s, cfg, step, InMargin(s, cfg))
  {
    match step
    case Node(c) => ChainMovesMargin(s, cfg, c);
    case ScanTick =>
      if Scans(s, cfg, step) {
        ScanSetsMargin(s, cfg);
      }
    case _ =>
  }

  /** The hypothesis on the state of each scan is a hypothesis on the reorgs of the run, and no more. */
  lemma {:induction false} ForksIffReorgs(s: State, cfg: Settings, steps: seq<AtomicStep>)
    requires DepositConservation.Inv(s) && Complete(s) && Quiet(s) && AtomicRun(s, cfg, steps)
    ensures ForksAreShallow(s, cfg, steps) <==> ReorgsWithinMargin(s, cfg, steps, InMargin(s, cfg))
    decreases |steps|
  {
    if steps != [] {
      ShallowIffInMargin(s, cfg);
      if Scans(s, cfg, steps[0]) ==> ForkIsShallow(s, cfg) {
        AtomicKeeps(s, cfg, steps[0]);
        StepMovesMargin(s, cfg, steps[0]);
        ForksIffReorgs(AtomicNext(s, cfg, steps[0]), cfg, steps[1..]);
      }
    }
  }

  /** From the start: every scan finds its fork within the margin iff no reorg between scans went below it. */
  lemma MarginIff(cfg: Settings, steps: seq<AtomicStep>)
    requires AtomicRun(EMPTY, cfg, steps)
    ensures ForksAreShallow(EMPTY, cfg, steps) <==> ReorgsWithinMargin(EMPTY, cfg, steps, true)
  {
    DepositConservation.EmptyInv();
    assert InMargin(EMPTY, cfg);
    ForksIffReorgs(EMPTY, cfg, steps);
  }

  lemma {:induction false} AtomicRunKeeps(s: State, cfg: Settings, steps: seq<AtomicStep>)
    requires DepositConservation.Inv(s) && Complete(s) && Quiet(s)
    requires AtomicRun(s, cfg, steps) && ForksAreShallow(s, cfg, steps)
    ensures var t := RunAtomic(s, cfg, steps); DepositConservation.Inv(t) && Complete(t) && Quiet(t)
    decreases |steps|
  {
    if steps != [] {
      AtomicKeeps(s, cfg, steps[0]);
      AtomicRunKeeps(AtomicNext(s, cfg, steps[0]), cfg, steps[1..]);
    }
  }

  lemma {:induction false} LastScan(s: State, cfg: Settings, steps: seq<AtomicStep>)
    requires AtomicRun(s, cfg, steps + [ScanTick]) && ForksAreShallow(s, cfg, steps + [ScanTick])
    ensures AtomicRun(s, cfg, steps) && ForksAreShallow(s, cfg, steps)
    ensures var t := RunAtomic(s, cfg, steps);
            && RunAtomic(s, cfg, steps + [ScanTick]) == AtomicNext(t, cfg, ScanTick)
            && (Scans(t, cfg, ScanTick) ==> ForkIsShallow(t, cfg))
    decreases |steps|
  {
    var all := steps + [ScanTick];
    if steps == [] {
      assert all == [ScanTick] && all[1..] == [];
      assert RunAtomic(s, cfg, all) == RunAtomic(AtomicNext(s, cfg, ScanTick), cfg, all[1..]);
    } else {
      assert all[0] == steps[0] && all[1..] == steps[1..] + [ScanTick];
      LastScan(AtomicNext(s, cfg, steps[0]), cfg, steps[1..]);
    }
  }

  /**
    * With atomic ticks: if no reorg between two scans goes deeper than the safety margin below the
    * cursor, then after every scan each external log on the canonical chain at or below the cursor,
    * sent to an address the service watches, has a deposits row that is not REORGED.
    */
  lemma AfterEveryScan(cfg: Settings, steps: seq<AtomicStep>, n: nat, id: DepositId)
    requires AtomicRun(EMPTY, cfg, steps + [ScanTick]) && ReorgsWithinMargin(EMPTY, cfg, steps + [ScanTick], true)
    requires AtomicRun(EMPTY, cfg, steps) && Scans(RunAtomic(EMPTY, cfg, steps), cfg, ScanTick)
    ensures var t := RunAtomic(EMPTY, cfg, steps + [ScanTick]);
            && t.cursor <= |t.chain.path|
            && (n < t.cursor ==>
                 && Scanned(t.scans, t.chain.path[n].hash)
                 && forall r :: r in t.scans && r.hash == t.chain.path[n].hash ==>
                      ExternalLog(t.chain.path[n], id, r.watched) ==> Live(t, id))
  {
    DepositConservation.EmptyInv();
    MarginIff(cfg, steps + [ScanTick]);
    LastScan(EMPTY, cfg, steps);
    AtomicRunKeeps(EMPTY, cfg, steps);
    var s := RunAtomic(EMPTY, cfg, steps);
    ScanTickSteps(s, cfg);
    AtomicKeeps(s, cfg, ScanTick);
    CompleteBelowCursor(AtomicNext(s, cfg, ScanTick), n, id);
  }
}
