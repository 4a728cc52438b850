/** Three runs of the code in which a deposit is lost, one for each comparison that completeness needs. */
module DepositRaces {
  import opened Events
  import opened ChainModel
  import opened Deposits
  import opened DepositHistory

  const CFG: Settings := Settings(20, 200, 3, 15)
  const OURS: Addr := 7
  const PAYMENT: TxInfo := TxInfo(9, OURS, 5, true)
  const TX: TxRef := ForDeposit(0)
  const PAID: Included := Included(TX, PAYMENT, Some(0))
  const DEPOSIT: DepositId := DepositId(TX, 0)

  const GENESIS: Block := Block(1, 1, None, [])

  /** The run from the empty state to `s` exists. */
  ghost predicate Reachable(s: State)
  {
    exists steps :: ValidRun(EMPTY, CFG, steps) && Run(EMPTY, CFG, steps) == s
  }

  lemma Reach(s: State, step: Step)
    requires Reachable(s) && Enabled(s, CFG, step)
    ensures Reachable(Next(s, CFG, step))
  {
    var steps :| ValidRun(EMPTY, CFG, steps) && Run(EMPTY, CFG, steps) == s;
    RunSnoc(EMPTY, CFG, steps, step);
  }

  lemma EmptyIsReachable()
    ensures Reachable(EMPTY)
  {
    assert ValidRun(EMPTY, CFG, []) && Run(EMPTY, CFG, []) == EMPTY;
  }

  /** A submitted payment, a watched address and the genesis block. */
  ghost function Start(): State
  {
    EMPTY.(chain := Chain([GENESIS], map[1 := GENESIS], map[TX := PAYMENT]), addresses := {OURS})
  }

  lemma ReachTo(s: State, step: Step, t: State)
    requires Reachable(s) && Enabled(s, CFG, step) && Next(s, CFG, step) == t
    ensures Reachable(t)
  {
    Reach(s, step);
  }

  lemma SubmitStep()
    ensures Enabled(EMPTY, CFG, ChainStep(Submit(TX, PAYMENT)))
    ensures Next(EMPTY, CFG, ChainStep(Submit(TX, PAYMENT))) == EMPTY.(chain := Chain([], map[], map[TX := PAYMENT]))
  {
  }

  lemma GenesisStep(s: State)
    requires s == Start().(chain := Chain([], map[], map[TX := PAYMENT]))
    ensures Enabled(s, CFG, ChainStep(Mine(1, []))) && Next(s, CFG, ChainStep(Mine(1, []))) == Start()
  {
  }

  lemma StartIsReachable()
    ensures Reachable(Start())
  {
    EmptyIsReachable();
    SubmitStep();
    var s1 := EMPTY.(chain := Chain([], map[], map[TX := PAYMENT]));
    ReachTo(EMPTY, ChainStep(Submit(TX, PAYMENT)), s1);
    var s2 := s1.(addresses := {OURS});
    assert s1.addresses + {OURS} == {OURS};
    ReachTo(s1, AddAddress(OURS), s2);
    GenesisStep(s2);
    ReachTo(s2, ChainStep(Mine(1, [])), Start());
  }

  // ---- mining a second block, and reading a chain of two blocks ----

  lemma MineStep(s: State, hash: Hash, txs: seq<Included>)
    requires s.chain.path == [GENESIS] && hash !in s.chain.blocks && s.chain.submitted == map[TX := PAYMENT]
    requires txs == [] || txs == [PAID]
    ensures Enabled(s, CFG, ChainStep(Mine(hash, txs)))
    ensures var b := Block(2, hash, Some(1), txs);
            Next(s, CFG, ChainStep(Mine(hash, txs))) ==
            s.(chain := s.chain.(path := [GENESIS, b], blocks := s.chain.blocks[hash := b]))
  {
    assert !HasTx(GENESIS, TX);
  }

  lemma OrphanStep(s: State, b: Block)
    requires s.chain.path == [GENESIS, b]
    ensures Enabled(s, CFG, ChainStep(Orphan(1)))
    ensures Next(s, CFG, ChainStep(Orphan(1))) == s.(chain := s.chain.(path := [GENESIS]))
  {
    assert [GENESIS, b][..1] == [GENESIS];
  }

  /** The guard finds nothing to compare with, or another hash: the tick starts at height 1. */
  predicate StartsOver(s: State, b: Block)
  {
    && s.chain.path == [GENESIS, b] && s.scan.ScanIdle? && s.addresses == {OURS}
    && ((s.cursor == 0 && s.tip.None?) || (s.cursor == 2 && s.tip.Some? && s.tip.value != b.hash))
  }

  lemma GuardStep(s: State, b: Block)
    requires StartsOver(s, b)
    ensures GuardRead(s.(scan := HeadRead(2)), CFG, 2) == Ranged(1, 2)
  {
  }

  lemma LogsStep(s: State, b: Block)
    requires StartsOver(s, b)
    ensures Next(s.(scan := Ranged(1, 2)), CFG, ScanLogs) == s.(scan := LogsRead(1, 2, {OURS}, [GENESIS, b]))
  {
    assert Blocks(s.chain.path, 1, 2) == [GENESIS, b];
  }

  lemma ReachLogs(s: State, b: Block)
    requires Reachable(s) && StartsOver(s, b)
    ensures Reachable(s.(scan := LogsRead(1, 2, {OURS}, [GENESIS, b])))
  {
    ReachTo(s, ScanHead, s.(scan := HeadRead(2)));
    GuardStep(s, b);
    ReachTo(s.(scan := HeadRead(2)), ScanGuard, s.(scan := Ranged(1, 2)));
    LogsStep(s, b);
    ReachTo(s.(scan := Ranged(1, 2)), ScanLogs, s.(scan := LogsRead(1, 2, {OURS}, [GENESIS, b])));
  }

  lemma ReachTip(s: State, batch: seq<Block>, b: Block)
    requires Reachable(s) && s.scan == LogsRead(1, 2, {OURS}, batch) && s.chain.path == [GENESIS, b]
    ensures Reachable(s.(scan := TipRead(1, 2, {OURS}, batch, [GENESIS, b])))
  {
    assert [GENESIS, b][..2] == [GENESIS, b];
    ReachTo(s, ScanTip, s.(scan := TipRead(1, 2, {OURS}, batch, [GENESIS, b])));
  }

  // ---- a reorg between the log read and the tip read ----

  const EMPTY_TWO: Block := Block(2, 2, Some(1), [])
  const PAID_TWO: Block := Block(2, 3, Some(1), [PAID])

  ghost function WithBlocks(s: State, path: seq<Block>, blocks: map<Hash, Block>): State
  {
    s.(chain := Chain(path, blocks, map[TX := PAYMENT]))
  }

  ghost function TornCommit(): State
  {
    WithBlocks(Start(), [GENESIS, PAID_TWO], map[1 := GENESIS, 2 := EMPTY_TWO, 3 := PAID_TWO])
      .(cursor := 2, tip := Some(3), base := [GENESIS, PAID_TWO],
        scans := {ScanRecord(1, {OURS}), ScanRecord(2, {OURS})})
  }

  /**
    * The logs of height 2 are read from one fork and its hash from another. The guard is satisfied
    * from then on, so the payment in the new block 2 is never looked at.
    */
  lemma TornTickLosesDeposit()
    ensures Reachable(TornCommit())
    ensures var s := TornCommit();
            && HashAt(s.chain.path, s.cursor) == s.tip && !TipMoved(s)
            && HasLogTo(s.chain.path[1], DEPOSIT, OURS) && OURS in s.addresses
            && DEPOSIT !in s.rows && !Scanned(s.scans, s.chain.path[1].hash)
  {
    TornIsReachable();
    assert PAID in PAID_TWO.txs;
  }

  lemma TornIsReachable()
    ensures Reachable(TornCommit())
  {
    StartIsReachable();
    var two := map[1 := GENESIS, 2 := EMPTY_TWO];
    var three := map[1 := GENESIS, 2 := EMPTY_TWO, 3 := PAID_TWO];
    assert map[1 := GENESIS][2 := EMPTY_TWO] == two && two[3 := PAID_TWO] == three;
    var read := LogsRead(1, 2, {OURS}, [GENESIS, EMPTY_TWO]);
    var s1 := WithBlocks(Start(), [GENESIS, EMPTY_TWO], two);
    MineStep(Start(), 2, []);
    ReachTo(Start(), ChainStep(Mine(2, [])), s1);
    ReachLogs(s1, EMPTY_TWO);
    var s2 := s1.(scan := read);
    var s3 := WithBlocks(s2, [GENESIS], two);
    OrphanStep(s2, EMPTY_TWO);
    ReachTo(s2, ChainStep(Orphan(1)), s3);
    var s4 := WithBlocks(s3, [GENESIS, PAID_TWO], three);
    MineStep(s3, 3, [PAID]);
    ReachTo(s3, ChainStep(Mine(3, [PAID])), s4);
    ReachTip(s4, [GENESIS, EMPTY_TWO], PAID_TWO);
    var s5 := s4.(scan := TipRead(1, 2, {OURS}, [GENESIS, EMPTY_TWO], [GENESIS, PAID_TWO]));
    CommitTorn(s5);
    ReachTo(s5, ScanCommit, TornCommit());
  }

  lemma CommitTorn(s: State)
    requires s == WithBlocks(Start(), [GENESIS, PAID_TWO], map[1 := GENESIS, 2 := EMPTY_TWO, 3 := PAID_TWO])
                    .(scan := TipRead(1, 2, {OURS}, [GENESIS, EMPTY_TWO], [GENESIS, PAID_TWO]))
    ensures Next(s, CFG, ScanCommit) == TornCommit()
  {
    assert [GENESIS, EMPTY_TWO][..1] == [GENESIS] && [GENESIS][..0] == [];
    assert Entries([GENESIS], {OURS}) == [];
    assert Entries([GENESIS, EMPTY_TWO], {OURS}) == [];
    assert Next(s, CFG, ScanCommit).scans == {ScanRecord(1, {OURS}), ScanRecord(2, {OURS})};
  }

  // ---- a reorg between the guard read and the log read ----

  const THREE: Block := Block(3, 4, Some(2), [])
  const NEW_THREE: Block := Block(3, 5, Some(3), [])

  const OLD_BLOCKS: map<Hash, Block> := map[1 := GENESIS, 2 := EMPTY_TWO, 4 := THREE]
  const ALL_BLOCKS: map<Hash, Block> :=
    map[1 := GENESIS, 2 := EMPTY_TWO, 4 := THREE, 3 := PAID_TWO, 5 := NEW_THREE]

  /** A clean tick has scanned heights 1 and 2. */
  ghost function CleanTwo(): State
  {
    WithBlocks(Start(), [GENESIS, EMPTY_TWO], map[1 := GENESIS, 2 := EMPTY_TWO])
      .(cursor := 2, tip := Some(2), base := [GENESIS, EMPTY_TWO],
        scans := {ScanRecord(1, {OURS}), ScanRecord(2, {OURS})})
  }

  lemma CommitClean(s: State)
    requires s == WithBlocks(Start(), [GENESIS, EMPTY_TWO], map[1 := GENESIS, 2 := EMPTY_TWO])
                    .(scan := TipRead(1, 2, {OURS}, [GENESIS, EMPTY_TWO], [GENESIS, EMPTY_TWO]))
    ensures Next(s, CFG, ScanCommit) == CleanTwo()
  {
    assert [GENESIS, EMPTY_TWO][..1] == [GENESIS] && [GENESIS][..0] == [];
    assert Entries([GENESIS], {OURS}) == [];
    assert Entries([GENESIS, EMPTY_TWO], {OURS}) == [];
    assert Next(s, CFG, ScanCommit).scans == {ScanRecord(1, {OURS}), ScanRecord(2, {OURS})};
  }

  lemma CleanTwoIsReachable()
    ensures Reachable(CleanTwo())
  {
    StartIsReachable();
    var two := map[1 := GENESIS, 2 := EMPTY_TWO];
    assert map[1 := GENESIS][2 := EMPTY_TWO] == two;
    var s1 := WithBlocks(Start(), [GENESIS, EMPTY_TWO], two);
    MineStep(Start(), 2, []);
    ReachTo(Start(), ChainStep(Mine(2, [])), s1);
    ReachLogs(s1, EMPTY_TWO);
    ReachTip(s1.(scan := LogsRead(1, 2, {OURS}, [GENESIS, EMPTY_TWO])), [GENESIS, EMPTY_TWO], EMPTY_TWO);
    var s2 := s1.(scan := TipRead(1, 2, {OURS}, [GENESIS, EMPTY_TWO], [GENESIS, EMPTY_TWO]));
    CommitClean(s2);
    ReachTo(s2, ScanCommit, CleanTwo());
  }

  lemma MineEmptyThree(s: State, b: Block, hash: Hash)
    requires s.chain.path == [GENESIS, b] && hash !in s.chain.blocks
    ensures Enabled(s, CFG, ChainStep(Mine(hash, [])))
    ensures var c := Block(3, hash, Some(b.hash), []);
            Next(s, CFG, ChainStep(Mine(hash, []))) ==
            s.(chain := s.chain.(path := [GENESIS, b, c], blocks := s.chain.blocks[hash := c]))
  {
  }

  lemma OrphanTwo(s: State, b: Block, c: Block)
    requires s.chain.path == [GENESIS, b, c]
    ensures Enabled(s, CFG, ChainStep(Orphan(1)))
    ensures Next(s, CFG, ChainStep(Orphan(1))) == s.(chain := s.chain.(path := [GENESIS]))
  {
    assert [GENESIS, b, c][..1] == [GENESIS];
  }

  /** The guard finds the stored hash in place: the tick is to scan height 3 only. */
  lemma GuardedThreeIsReachable()
    ensures Reachable(WithBlocks(CleanTwo(), [GENESIS, EMPTY_TWO, THREE], OLD_BLOCKS).(scan := Ranged(3, 3)))
  {
    CleanTwoIsReachable();
    assert CleanTwo().chain.blocks[4 := THREE] == OLD_BLOCKS;
    var s := WithBlocks(CleanTwo(), [GENESIS, EMPTY_TWO, THREE], OLD_BLOCKS);
    MineEmptyThree(CleanTwo(), EMPTY_TWO, 4);
    ReachTo(CleanTwo(), ChainStep(Mine(4, [])), s);
    ReachTo(s, ScanHead, s.(scan := HeadRead(3)));
    GuardThree(s);
    ReachTo(s.(scan := HeadRead(3)), ScanGuard, s.(scan := Ranged(3, 3)));
  }

  lemma GuardThree(s: State)
    requires s.chain.path == [GENESIS, EMPTY_TWO, THREE] && s.cursor == 2 && s.tip == Some(2)
    ensures GuardRead(s.(scan := HeadRead(3)), CFG, 3) == Ranged(3, 3)
  {
  }

  /** Heights 2 and 3 are replaced, height 2 now with the payment. */
  lemma ForkedThreeIsReachable()
    ensures Reachable(WithBlocks(CleanTwo(), [GENESIS, PAID_TWO, NEW_THREE], ALL_BLOCKS).(scan := Ranged(3, 3)))
  {
    GuardedThreeIsReachable();
    var s := WithBlocks(CleanTwo(), [GENESIS, EMPTY_TWO, THREE], OLD_BLOCKS).(scan := Ranged(3, 3));
    var s1 := WithBlocks(s, [GENESIS], OLD_BLOCKS);
    OrphanTwo(s, EMPTY_TWO, THREE);
    ReachTo(s, ChainStep(Orphan(1)), s1);
    var s2 := WithBlocks(s, [GENESIS, PAID_TWO], OLD_BLOCKS[3 := PAID_TWO]);
    MineStep(s1, 3, [PAID]);
    ReachTo(s1, ChainStep(Mine(3, [PAID])), s2);
    assert OLD_BLOCKS[3 := PAID_TWO][5 := NEW_THREE] == ALL_BLOCKS;
    MineEmptyThree(s2, PAID_TWO, 5);
    ReachTo(s2, ChainStep(Mine(5, [])), WithBlocks(s, [GENESIS, PAID_TWO, NEW_THREE], ALL_BLOCKS));
  }

  ghost function SkippedTwo(): State
  {
    WithBlocks(CleanTwo(), [GENESIS, PAID_TWO, NEW_THREE], ALL_BLOCKS)
      .(cursor := 3, tip := Some(5), base := [GENESIS, PAID_TWO, NEW_THREE],
        scans := {ScanRecord(1, {OURS}), ScanRecord(2, {OURS}), ScanRecord(5, {OURS})})
  }

  lemma ReadThree(s: State)
    requires s == WithBlocks(CleanTwo(), [GENESIS, PAID_TWO, NEW_THREE], ALL_BLOCKS)
    ensures Next(s.(scan := Ranged(3, 3)), CFG, ScanLogs) == s.(scan := LogsRead(3, 3, {OURS}, [NEW_THREE]))
    ensures Next(s.(scan := LogsRead(3, 3, {OURS}, [NEW_THREE])), CFG, ScanTip) ==
            s.(scan := TipRead(3, 3, {OURS}, [NEW_THREE], [GENESIS, PAID_TWO, NEW_THREE]))
  {
    assert Blocks(s.chain.path, 3, 3) == [NEW_THREE];
    assert s.chain.path[..3] == s.chain.path;
  }

  lemma CommitSkipped(s: State)
    requires s == WithBlocks(CleanTwo(), [GENESIS, PAID_TWO, NEW_THREE], ALL_BLOCKS)
                    .(scan := TipRead(3, 3, {OURS}, [NEW_THREE], [GENESIS, PAID_TWO, NEW_THREE]))
    ensures Next(s, CFG, ScanCommit) == SkippedTwo()
  {
    assert [NEW_THREE][..0] == [] && Entries([NEW_THREE], {OURS}) == [];
    assert Next(s, CFG, ScanCommit).scans == {ScanRecord(1, {OURS}), ScanRecord(2, {OURS}), ScanRecord(5, {OURS})};
  }

  lemma SkippedIsReachable()
    ensures Reachable(SkippedTwo())
  {
    ForkedThreeIsReachable();
    var s := WithBlocks(CleanTwo(), [GENESIS, PAID_TWO, NEW_THREE], ALL_BLOCKS);
    ReadThree(s);
    var read := s.(scan := LogsRead(3, 3, {OURS}, [NEW_THREE]));
    ReachTo(s.(scan := Ranged(3, 3)), ScanLogs, read);
    var done := s.(scan := TipRead(3, 3, {OURS}, [NEW_THREE], [GENESIS, PAID_TWO, NEW_THREE]));
    ReachTo(read, ScanTip, done);
    CommitSkipped(done);
    ReachTo(done, ScanCommit, SkippedTwo());
  }

  /**
    * Logs and tip are read from one chain, but the guard was satisfied by another: the block under the
    * range is not the one the previous tick recorded. The payment in the new block 2 is never looked at.
    */
  lemma GuardTearLosesDeposit()
    ensures Reachable(SkippedTwo())
    ensures var s := SkippedTwo();
            && HashAt(s.chain.path, s.cursor) == s.tip && !TipMoved(s)
            && HasLogTo(s.chain.path[1], DEPOSIT, OURS) && OURS in s.addresses
            && DEPOSIT !in s.rows && !Scanned(s.scans, s.chain.path[1].hash)
  {
    SkippedIsReachable();
    assert PAID in PAID_TWO.txs;
  }

  // ---- a negative verdict committed after the deposit came back ----

  const FIRST_TWO: Block := Block(2, 2, Some(1), [PAID])

  const KNOWN: map<Hash, Block> := map[1 := GENESIS, 2 := FIRST_TWO, 3 := PAID_TWO]

  ghost function Row2(): Row { Row(9, OURS, 5, 2, 2, 0, Detected) }

  /** Block 2 with the payment was scanned: the deposit is detected. */
  ghost function DetectedState(): State
  {
    WithBlocks(Start(), [GENESIS, FIRST_TWO], map[1 := GENESIS, 2 := FIRST_TWO])
      .(rows := map[DEPOSIT := Row2()], cursor := 2, tip := Some(2),
        log := [DepositDetected(DEPOSIT, 2)], base := [GENESIS, FIRST_TWO],
        scans := {ScanRecord(1, {OURS}), ScanRecord(2, {OURS})})
  }

  lemma PaidEntries(b: Block)
    requires b.txs == [PAID] && b.number == 2
    ensures Entries([GENESIS, b], {OURS}) == [LogEntry(DEPOSIT, 9, OURS, 5, 2, b.hash)]
  {
    assert [PAID][..0] == [];
    assert External(b, [], {OURS}) == [];
    assert External(b, [PAID], {OURS}) == [LogEntry(DEPOSIT, 9, OURS, 5, 2, b.hash)];
    assert [GENESIS, b][..1] == [GENESIS] && [GENESIS][..0] == [];
    assert External(GENESIS, [], {OURS}) == [];
    assert Entries([], {OURS}) == [];
    assert Entries([GENESIS], {OURS}) == [];
  }

  lemma DetectedIsReachable()
    ensures Reachable(DetectedState())
  {
    StartIsReachable();
    var two := map[1 := GENESIS, 2 := FIRST_TWO];
    assert map[1 := GENESIS][2 := FIRST_TWO] == two;
    var s1 := WithBlocks(Start(), [GENESIS, FIRST_TWO], two);
    MineStep(Start(), 2, [PAID]);
    ReachTo(Start(), ChainStep(Mine(2, [PAID])), s1);
    ReachLogs(s1, FIRST_TWO);
    ReachTip(s1.(scan := LogsRead(1, 2, {OURS}, [GENESIS, FIRST_TWO])), [GENESIS, FIRST_TWO], FIRST_TWO);
    var s2 := s1.(scan := TipRead(1, 2, {OURS}, [GENESIS, FIRST_TWO], [GENESIS, FIRST_TWO]));
    CommitDetected(s2);
    ReachTo(s2, ScanCommit, DetectedState());
  }

  lemma CommitDetected(s: State)
    requires s == WithBlocks(Start(), [GENESIS, FIRST_TWO], map[1 := GENESIS, 2 := FIRST_TWO])
                    .(scan := TipRead(1, 2, {OURS}, [GENESIS, FIRST_TWO], [GENESIS, FIRST_TWO]))
    ensures Next(s, CFG, ScanCommit) == DetectedState()
  {
    PaidEntries(FIRST_TWO);
    var e := LogEntry(DEPOSIT, 9, OURS, 5, 2, 2);
    assert [e][..0] == [];
    assert UpsertAll(s, []) == s;
    assert UpsertAll(s, [e]) == Upsert(s, e);
    assert Next(s, CFG, ScanCommit).scans == {ScanRecord(1, {OURS}), ScanRecord(2, {OURS})};
  }

  /** Block 2 is orphaned, the watcher finds no receipt, and the payment is mined again in a new block 2. */
  ghost function StaleVerdict(): State
  {
    WithBlocks(DetectedState(), [GENESIS, PAID_TWO], KNOWN).(watch := Judged(DEPOSIT, 2, Absent))
  }

  lemma NoReceiptStep(s: State)
    requires s.chain.path == [GENESIS] && s.watch.WatchIdle? && s.rows == map[DEPOSIT := Row2()]
    ensures Enabled(s, CFG, WatchReceipt(DEPOSIT, 2))
    ensures Next(s, CFG, WatchReceipt(DEPOSIT, 2)) == s.(watch := Judged(DEPOSIT, 2, Absent))
  {
    assert !HasTx(GENESIS, TX);
    assert ReceiptIndex([GENESIS], TX) == None by {
      assert [GENESIS][..0] == [];
    }
  }

  lemma StaleVerdictIsReachable()
    ensures Reachable(StaleVerdict())
  {
    DetectedIsReachable();
    var two := map[1 := GENESIS, 2 := FIRST_TWO];
    assert two[3 := PAID_TWO] == KNOWN;
    var s1 := WithBlocks(DetectedState(), [GENESIS], two);
    OrphanStep(DetectedState(), FIRST_TWO);
    ReachTo(DetectedState(), ChainStep(Orphan(1)), s1);
    var s2 := s1.(watch := Judged(DEPOSIT, 2, Absent));
    NoReceiptStep(s1);
    ReachTo(s1, WatchReceipt(DEPOSIT, 2), s2);
    MineStep(s2, 3, [PAID]);
    ReachTo(s2, ChainStep(Mine(3, [PAID])), StaleVerdict());
  }

  ghost function Rescanned(): State
  {
    StaleVerdict().(tip := Some(3), base := [GENESIS, PAID_TWO],
                    scans := {ScanRecord(1, {OURS}), ScanRecord(2, {OURS}), ScanRecord(3, {OURS})})
  }

  lemma RescannedIsReachable()
    ensures Reachable(Rescanned())
  {
    StaleVerdictIsReachable();
    var s := StaleVerdict();
    ReachLogs(s, PAID_TWO);
    ReachTip(s.(scan := LogsRead(1, 2, {OURS}, [GENESIS, PAID_TWO])), [GENESIS, PAID_TWO], PAID_TWO);
    var s1 := s.(scan := TipRead(1, 2, {OURS}, [GENESIS, PAID_TWO], [GENESIS, PAID_TWO]));
    CommitRescan(s1);
    ReachTo(s1, ScanCommit, Rescanned());
  }

  lemma CommitRescan(s: State)
    requires s == StaleVerdict().(scan := TipRead(1, 2, {OURS}, [GENESIS, PAID_TWO], [GENESIS, PAID_TWO]))
    ensures Next(s, CFG, ScanCommit) == Rescanned()
  {
    PaidEntries(PAID_TWO);
    var e := LogEntry(DEPOSIT, 9, OURS, 5, 2, 3);
    assert [e][..0] == [];
    assert UpsertAll(s, []) == s;
    assert UpsertAll(s, [e]) == Upsert(s, e) == s;
    assert Next(s, CFG, ScanCommit).scans == {ScanRecord(1, {OURS}), ScanRecord(2, {OURS}), ScanRecord(3, {OURS})};
  }

  /**
    * The scanner passes the new block while the row is still live and leaves it alone; the watcher
    * then commits what it saw before. The deposit is on chain, scanned, and marked REORGED.
    */
  lemma StaleVerdictLosesDeposit()
    ensures Enabled(Rescanned(), CFG, WatchCommit)
    ensures var s := Next(Rescanned(), CFG, WatchCommit);
            && Reachable(s)
            && HashAt(s.chain.path, s.cursor) == s.tip && !TipMoved(s)
            && HasLogTo(s.chain.path[1], DEPOSIT, OURS) && Scanned(s.scans, s.chain.path[1].hash)
            && DEPOSIT in s.rows && s.rows[DEPOSIT].status == Reorged
  {
    RescannedIsReachable();
    Reach(Rescanned(), WatchCommit);
    assert PAID in PAID_TWO.txs;
    assert ScanRecord(3, {OURS}) in Rescanned().scans;
  }
}
