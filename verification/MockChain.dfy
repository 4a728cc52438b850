/** The simulated node itself: tables changed in place, one transaction per method. */
module MockChain {
  import opened Events
  import opened Sums
  import opened ChainModel
  import opened MockNode
  import opened MockUndo
  import opened MockSupply
  import opened MockFork

  datatype SendResult = Accepted | Rejected | Unavailable

  datatype Receipt = Receipt(number: nat, hash: Hash, ok: bool)

  /** A read raises while the node is unreachable. */
  datatype Answer<T> = Down | Up(value: T)

  // ---- canonical rows and path positions ----

  predicate NoneAbove(blocks: map<Hash, BlockRow>, number: nat)
  {
    forall g :: g in blocks && blocks[g].canonical ==> blocks[g].number <= number
  }

  ghost predicate CanonicalRow(n: Node, h: Hash, number: nat)
  {
    h in n.blocks && n.blocks[h].canonical && n.blocks[h].number == number
  }

  /** At each height of the path there is one canonical row, and nowhere else. */
  lemma CanonicalRowIs(n: Node, h: Hash, number: nat)
    requires NodeOk(n)
    ensures CanonicalRow(n, h, number) <==> HashAt(n.path, number) == Some(h)
  {
    assert h in n.blocks ==> FlagTells(n.blocks, n.path, h);
    if HashAt(n.path, number) == Some(h) {
      assert n.archive[n.path[number - 1].hash] == n.path[number - 1] && n.path[number - 1].number == number;
    }
  }

  lemma HeadExists(n: Node) returns (h: Hash)
    requires NodeOk(n) && n.path != []
    ensures CanonicalRow(n, h, |n.path|)
    ensures NoneAbove(n.blocks, n.blocks[h].number)
  {
    h := n.path[|n.path| - 1].hash;
    CanonicalRowIs(n, h, |n.path|);
    forall g | g in n.blocks && n.blocks[g].canonical ensures n.blocks[g].number <= |n.path| {
      CanonicalRowIs(n, g, n.blocks[g].number);
    }
  }

  lemma EarliestExists(txs: map<TxRef, Tx>, rest: set<TxRef>) returns (t: TxRef)
    requires rest != {} && rest <= txs.Keys
    ensures t in rest && forall u :: u in rest ==> NotAfter(txs[t], txs[u])
    decreases rest
  {
    var first :| first in rest;
    var others := rest - {first};
    assert rest == others + {first};
    t := first;
    if others != {} {
      var m := EarliestExists(txs, others);
      t := if NotAfter(txs[m], txs[first]) then m else first;
    }
  }

  lemma {:induction false} FreshExists(used: set<Hash>) returns (h: Hash)
    ensures h !in used && forall g :: g in used ==> g < h
    decreases used
  {
    if used == {} {
      h := 0;
    } else {
      var g :| g in used;
      var m := FreshExists(used - {g});
      h := if m <= g then g + 1 else m;
      assert used == (used - {g}) + {g};
    }
  }

  /** The page query of `mine_block`. */
  method SelectPage(txs: map<TxRef, Tx>) returns (page: seq<TxRef>)
    requires forall t :: t in txs ==> txs[t].info.amount > 0
    ensures IsPage(txs, page)
  {
    var rest := PendingIn(txs);
    page := [];
    while rest != {} && |page| < MAX_TXS_PER_BLOCK
      invariant |page| <= MAX_TXS_PER_BLOCK && rest <= PendingIn(txs)
      invariant forall t :: t in PendingIn(txs) <==> t in rest || t in page
      invariant forall k :: 0 <= k < |page| ==> page[k] in PendingIn(txs) && page[k] !in rest
      invariant Distinct(page)
      invariant forall i, j :: 0 <= i < j < |page| ==> NotAfter(txs[page[i]], txs[page[j]])
      invariant forall t, u :: t in page && u in rest ==> NotAfter(txs[t], txs[u])
      decreases rest
    {
      ghost var w := EarliestExists(txs, rest);
      var t :| t in rest && forall u :: u in rest ==> NotAfter(txs[t], txs[u]);
      page := page + [t];
      rest := rest - {t};
    }
    assert forall t :: t in page ==> t in PendingIn(txs);
  }

  class MockChain {
    var txs: map<TxRef, Tx>
    var blocks: map<Hash, BlockRow>
    var balances: map<Addr, int>
    var rpcAvailable: bool
    var haltMining: bool
    var failNext: nat
    /** The canonical path and all blocks ever mined. */
    ghost var path: seq<Block>
    ghost var archive: map<Hash, Block>

    ghost function Tables(): Node
      reads this
    {
      Node(path, archive, txs, blocks, balances)
    }

    ghost function Abstract(): Chain
      reads this
    {
      ChainOf(Tables())
    }

    ghost predicate Valid()
      reads this
    {
      NodeOk(Tables()) && path != []
    }

    /** `ensure_started`. */
    constructor (genesis: Hash)
      ensures Valid()
      ensures var b := Block(GENESIS_NUMBER, genesis, None, []); Abstract() == Chain([b], map[genesis := b], map[])
    {
      txs, balances, rpcAvailable, haltMining, failNext := map[], map[], true, false, 0;
      blocks := map[genesis := BlockRow(GENESIS_NUMBER, None, true)];
      var b := Block(GENESIS_NUMBER, genesis, None, []);
      path, archive := [b], map[genesis := b];
      new;
      GenesisOk(b);
    }

    method SendTransfer(t: TxRef, info: TxInfo, failOnMine: bool, now: nat, hash: nat) returns (r: SendResult)
      requires Valid()
      modifies this`txs
      ensures Valid()
      ensures r == if info.amount <= 0 then Rejected else if !rpcAvailable then Unavailable else Accepted
      ensures r.Accepted? && t !in old(txs) ==>
                txs == old(txs)[t := Tx(info, failOnMine, now, hash, Pending, None, None, None)]
      ensures r.Accepted? ==> Abstract() == NodeNext(old(Abstract()), Submit(t, info))
      ensures !r.Accepted? ==> txs == old(txs)
      ensures t in old(txs) ==> txs == old(txs)
    {
      if info.amount <= 0 {
        return Rejected;
      }
      if !rpcAvailable {
        return Unavailable;
      }
      if t !in txs {
        ghost var before := Tables();
        txs := txs[t := Tx(info, failOnMine, now, hash, Pending, None, None, None)];
        SubmitKeepsNode(before, t, txs[t]);
      }
      r := Accepted;
    }

    method Adjust(a: Addr, delta: int)
      modifies this`balances
      ensures balances == MockNode.Adjust(old(balances), a, delta)
    {
      if a !in balances {
        balances := balances[a := 0];
      }
      balances := balances[a := balances[a] + delta];
    }

    method ApplyBalances(info: TxInfo, sign: int)
      modifies this`balances
      ensures balances == MockNode.ApplyBalances(old(balances), info, sign)
    {
      if !info.isMint {
        Adjust(info.sender, -sign * info.amount);
      }
      Adjust(info.recipient, sign * info.amount);
    }

    /** The body of the mining loop, for one transaction. */
    method MineTx(t: TxRef, number: nat, hash: Hash, logIndex: nat, ghost included: seq<Included>)
      returns (next: nat, ghost now: seq<Included>)
      requires t in txs
      modifies this`txs, this`balances, this`failNext
      ensures Mining(txs, balances, failNext, next, now) ==
              MineOne(Mining(old(txs), old(balances), old(failNext), logIndex, included), number, hash, t)
    {
      var tx := txs[t];
      var forced := tx.failOnMine || (failNext > 0 && !tx.info.isMint);
      if forced && !tx.failOnMine {
        failNext := failNext - 1;
      }
      var reverted := forced;
      if !reverted && !tx.info.isMint {
        if tx.info.sender !in balances || balances[tx.info.sender] < tx.info.amount {
          reverted := true;
        }
      }
      tx := tx.(number := Some(number), block := Some(hash));
      if reverted {
        txs := txs[t := tx.(status := Failed, logIndex := None)];
        next, now := logIndex, included + [Included(t, tx.info, None)];
      } else {
        ApplyBalances(tx.info, 1);
        txs := txs[t := tx.(status := Mined, logIndex := Some(logIndex))];
        next, now := logIndex + 1, included + [Included(t, tx.info, Some(logIndex))];
      }
    }

    method MinePage(page: seq<TxRef>, number: nat, hash: Hash) returns (logged: nat, ghost included: seq<Included>)
      requires forall t :: t in page ==> t in txs
      modifies this`txs, this`balances, this`failNext
      ensures Mining(txs, balances, failNext, logged, included) ==
              MineAll(Mining(old(txs), old(balances), old(failNext), 0, []), number, hash, page)
    {
      ghost var start := Mining(txs, balances, failNext, 0, []);
      logged, included := 0, [];
      for k := 0 to |page|
        invariant Mining(txs, balances, failNext, logged, included) == MineAll(start, number, hash, page[..k])
      {
        assert page[..k + 1][..k] == page[..k];
        logged, included := MineTx(page[k], number, hash, logged, included);
      }
      assert page[..|page|] == page;
    }

    /** Height and hash of the canonical block with the greatest number. */
    method Head() returns (number: nat, hash: Hash)
      requires Valid()
      ensures number == |path| && HashAt(path, number) == Some(hash)
    {
      ghost var n := Tables();
      ghost var w := HeadExists(n);
      var head :| head in blocks && blocks[head].canonical && NoneAbove(blocks, blocks[head].number);
      HeadIsTop(n, head);
      number, hash := blocks[head].number, head;
    }

    method PickPage() returns (page: seq<TxRef>)
      requires forall t :: t in txs ==> txs[t].info.amount > 0
      ensures if haltMining then page == [] else IsPage(txs, page)
      ensures FromPending(txs, page)
    {
      page := [];
      if !haltMining {
        page := SelectPage(txs);
      }
    }

    /** Insert the block row and execute the page. */
    method FillBlock(hash: Hash, number: nat, parent: Hash, page: seq<TxRef>) returns (ghost m: Mining)
      requires number == |path| + 1 && HashAt(path, |path|) == Some(parent) && forall t :: t in page ==> t in txs
      modifies this
      ensures m == MineAll(StartMining(old(Tables()), old(failNext)), number, hash, page)
      ensures Tables() == AddBlock(old(Tables()), hash, m) && failNext == m.failNext
      ensures haltMining == old(haltMining) && rpcAvailable == old(rpcAvailable)
    {
      ghost var n := Tables();
      blocks := blocks[hash := BlockRow(number, Some(parent), true)];
      ghost var included;
      var logged;
      logged, included := MinePage(page, number, hash);
      m := Mining(txs, balances, failNext, logged, included);
      ghost var b := NewBlock(ChainOf(n), hash, included);
      path, archive := path + [b], archive[hash := b];
    }

    /** One block of a given page on top of the head: `Mines` says what it contains. */
    method MinePicked(hash: Hash, page: seq<TxRef>) returns (number: nat, ghost included: seq<Included>)
      requires Valid() && hash !in blocks && FromPending(txs, page)
      modifies this
      ensures Valid() && number == |path|
      ensures Mines(old(Tables()), old(failNext), hash, page, included, Tables())
      ensures haltMining == old(haltMining) && failNext == FailuresLeftAfter(old(txs), page, old(failNext))
    {
      ghost var n := Tables();
      var head, parent := Head();
      number := head + 1;
      ghost var fails := failNext;
      ghost var m := FillBlock(hash, number, parent, page);
      included := m.included;
      MinedBlock(n, hash, page, fails, number, m);
      Counters(StartMining(n, fails), number, hash, page);
    }

    /** One block: the mempool page, or nothing while mining is halted. */
    method MineBlock(hash: Hash) returns (number: nat, ghost page: seq<TxRef>, ghost included: seq<Included>)
      requires Valid() && hash !in blocks
      modifies this
      ensures Valid() && number == |path|
      ensures Mines(old(Tables()), old(failNext), hash, page, included, Tables())
      ensures if old(haltMining) then page == [] else IsPage(old(txs), page)
      ensures haltMining == old(haltMining) && failNext == FailuresLeftAfter(old(txs), page, old(failNext))
    {
      var batch := PickPage();
      page := batch;
      number, included := MinePicked(hash, batch);
    }

    /** The body of the undo loop, for one transaction. */
    method UndoTx(t: TxRef, drop: set<TxRef>)
      requires t in txs
      modifies this`txs, this`balances
      ensures Undo(txs, balances) == UndoOne(Undo(old(txs), old(balances)), t, drop)
    {
      var tx := txs[t];
      if tx.status.Mined? {
        ApplyBalances(tx.info, -1);
      }
      var status := if t in drop then Dropped else Pending;
      txs := txs[t := tx.(number := None, block := None, logIndex := None, status := status)];
    }

    /** Undo the transactions of the head block, in any order. */
    method UndoTxs(hash: Hash, drop: set<TxRef>) returns (ghost u: Undo)
      requires Valid() && path[|path| - 1].hash == hash
      modifies this`txs, this`balances
      ensures u == Undo(txs, balances) && UndoLoop(old(Tables()), u, {}, drop)
    {
      ghost var n := Tables();
      StartUndo(n, drop);
      var rest := InBlock(txs, hash);
      while rest != {}
        invariant UndoLoop(n, Undo(txs, balances), rest, drop)
        decreases rest
      {
        var t :| t in rest;
        UndoAny(n, Undo(txs, balances), rest, drop, t);
        UndoTx(t, drop);
        rest := rest - {t};
      }
      u := Undo(txs, balances);
    }

    method DropHead(hash: Hash, drop: set<TxRef>) returns (ghost u: Undo)
      requires Valid() && path[|path| - 1].hash == hash && hash in blocks
      modifies this`txs, this`balances, this`blocks, this`path
      ensures UndoLoop(old(Tables()), u, {}, drop)
      ensures Tables() == DropTop(old(Tables()), u)
    {
      u := UndoTxs(hash, drop);
      blocks := blocks[hash := blocks[hash].(canonical := false)];
      path := path[..|path| - 1];
    }

    method CanonicalAt(number: nat) returns (hash: Hash)
      requires Valid() && 1 <= number <= |path|
      ensures path[number - 1].hash == hash && hash in blocks
    {
      CanonicalRowIs(Tables(), path[number - 1].hash, number);
      hash :| hash in blocks && blocks[hash].canonical && blocks[hash].number == number;
      CanonicalRowIs(Tables(), hash, number);
    }

    /** One victim of a reorg: the canonical block at the current height. */
    method DropVictim(head: nat, drop: set<TxRef>)
      requires Valid() && head == |path| > 1
      modifies this`txs, this`balances, this`blocks, this`path
      ensures CutBack(old(Tables()), Tables(), drop) && |path| == head - 1
    {
      ghost var n := Tables();
      var victim := CanonicalAt(head);
      ghost var u := DropHead(victim, drop);
      CutTop(n, u, Tables(), drop);
    }

    /**
      * The orphaning half of `reorg`, as one transaction: at most the blocks above genesis leave the
      * path, their transactions return to the mempool or are dropped, and the node stays consistent.
      */
    method Orphan(depth: int, drop: set<TxRef>) returns (orphaned: nat)
      requires Valid()
      modifies this`txs, this`balances, this`blocks, this`path
      ensures Valid() && CutBack(old(Tables()), Tables(), drop)
      ensures BackInOrder(old(txs), txs, |path|, drop)
      ensures orphaned == if depth <= 0 then 0 else if depth < |old(path)| then depth else |old(path)| - 1
      ensures |path| == |old(path)| - orphaned && haltMining == old(haltMining)
    {
      ghost var n := Tables();
      var head, top := Head();
      var lowest := if head - depth + 1 > GENESIS_NUMBER + 1 then head - depth + 1 else GENESIS_NUMBER + 1;
      orphaned := 0;
      CutNothing(n, drop);
      while head >= lowest
        invariant CutBack(n, Tables(), drop) && head == |path| && orphaned == |n.path| - head
        invariant head == |n.path| || head >= lowest - 1
      {
        ghost var mid := Tables();
        DropVictim(head, drop);
        CutFurther(n, mid, Tables(), drop);
        head, orphaned := head - 1, orphaned + 1;
      }
      CutIsInOrder(n, Tables(), drop);
    }

    /** A hash no block ever had. */
    method NewHash() returns (hash: Hash)
      ensures hash !in blocks
    {
      ghost var w := FreshExists(blocks.Keys);
      hash :| hash !in blocks;
    }

    /**
      * The mining half of `reorg`: one block more than was orphaned, each its own transaction. `trace` is the
      * node after the orphaning and after each block.
      */
    method MineFork(count: nat, ghost base: Chain, ghost keep: nat) returns (ghost trace: seq<Node>)
      requires Valid() && Forked(base, keep, Abstract())
      modifies this
      ensures Valid() && Forked(base, keep, Abstract()) && |path| == |old(path)| + count
      ensures |trace| == count + 1 && ForkTrace(trace, old(haltMining))
      ensures trace[0] == old(Tables()) && trace[count] == Tables()
    {
      trace := [Tables()];
      for k := 0 to count
        invariant Valid() && Forked(base, keep, Abstract()) && |path| == |old(path)| + k
        invariant |trace| == k + 1 && ForkTrace(trace, haltMining) && haltMining == old(haltMining)
        invariant trace[0] == old(Tables()) && trace[k] == Tables()
      {
        MineOneMore(base, keep);
        TraceGrows(trace, haltMining, Tables());
        trace := trace + [Tables()];
      }
    }

    method MineOneMore(ghost base: Chain, ghost keep: nat)
      requires Valid() && Forked(base, keep, Abstract())
      modifies this
      ensures Valid() && Forked(base, keep, Abstract()) && |path| == |old(path)| + 1
      ensures ForkStep(old(Tables()), Tables(), haltMining) && haltMining == old(haltMining)
    {
      ghost var c := Abstract();
      var hash := NewHash();
      ghost var page, included;
      var number;
      number, page, included := MineBlock(hash);
      ForkGrows(base, keep, c, hash, included);
    }

    /**
      * A whole reorg ends one block higher than it began, keeps the blocks below the fork, puts only freshly
      * mined blocks above it, each with a mempool page of its moment, and never touches genesis. What the
      * orphaned blocks held is dropped if so named; else it is mined again if mining is not halted and the
      * fork has room for all that is pending.
      */
    method Reorg(depth: int, drop: set<TxRef>) returns (orphaned: nat, ghost trace: seq<Node>)
      requires Valid()
      modifies this
      ensures Valid() && |path| == |old(path)| + 1
      ensures orphaned == if depth <= 0 then 0 else if depth < |old(path)| then depth else |old(path)| - 1
      ensures Forked(old(Abstract()), |old(path)| - orphaned, Abstract())
      ensures |trace| == orphaned + 2 && ForkTrace(trace, old(haltMining)) && trace[orphaned + 1] == Tables()
      ensures CutBack(old(Tables()), trace[0], drop) && |trace[0].path| == |old(path)| - orphaned
      ensures AllResettled(old(Tables()), |old(path)| - orphaned, trace, old(haltMining), drop)
    {
      ghost var n, halted := Tables(), haltMining;
      orphaned := Orphan(depth, drop);
      ghost var mid := Tables();
      trace := MineFork(orphaned + 1, ChainOf(n), |mid.path|);
      assert trace[0] == mid && ForkTrace(trace, halted);
      OrphansAreResettled(n, trace, halted, drop);
    }

    // ---- reads ----

    method GetBlockNumber() returns (r: Answer<nat>)
      requires Valid()
      ensures r == if rpcAvailable then Up(|path|) else Down
    {
      if !rpcAvailable {
        return Down;
      }
      var number, hash := Head();
      r := Up(number);
    }

    method GetBlockHash(number: nat) returns (r: Answer<Option<Hash>>)
      requires Valid()
      ensures r == if rpcAvailable then Up(HashAt(path, number)) else Down
    {
      if !rpcAvailable {
        return Down;
      }
      ghost var n := Tables();
      forall h: Hash ensures CanonicalRow(n, h, number) <==> HashAt(path, number) == Some(h) {
        CanonicalRowIs(n, h, number);
      }
      if h :| h in blocks && blocks[h].canonical && blocks[h].number == number {
        assert CanonicalRow(n, h, number);
        r := Up(Some(h));
      } else {
        assert forall h: Hash :: !CanonicalRow(n, h, number);
        r := Up(None);
      }
    }

    /** A receipt exactly for a transaction that a canonical block includes, if the node can be reached. */
    method GetReceipt(t: TxRef) returns (r: Answer<Option<Receipt>>)
      requires Valid()
      ensures r.Down? <==> !rpcAvailable
      ensures r.Up? ==> (r.value.Some? <==> ReceiptIndex(path, t).Some?)
      ensures r.Up? && r.value.Some? ==> ReceiptOk(Tables(), t, ReceiptIndex(path, t).value, r.value.value)
    {
      if !rpcAvailable {
        return Down;
      }
      ReceiptIffOnChain(Tables(), t);
      if t !in txs {
        return Up(None);
      }
      var tx := txs[t];
      if tx.status.Pending? || tx.status.Dropped? || tx.block.None? || tx.block.value !in blocks
         || !blocks[tx.block.value].canonical
      {
        return Up(None);
      }
      r := Up(Some(Receipt(if tx.number.Some? then tx.number.value else 0, tx.block.value, tx.status.Mined?)));
    }
  }

  ghost predicate ReceiptOk(n: Node, t: TxRef, i: nat, r: Receipt)
  {
    i < |n.path| && r.number == i + 1 && r.hash == n.path[i].hash && (r.ok <==> HasMined(n.path[i], t))
  }

  /** Each transfer of the page that is neither a mint nor marked to fail uses up one injected failure. */
  function FailuresLeftAfter(txs: map<TxRef, Tx>, page: seq<TxRef>, failNext: nat): nat
    requires forall t :: t in page ==> t in txs
  {
    var used := Absorbers(txs, page);
    if used <= failNext then failNext - used else 0
  }

  lemma HeadIsTop(n: Node, head: Hash)
    requires NodeOk(n) && n.path != [] && head in n.blocks && n.blocks[head].canonical
    requires NoneAbove(n.blocks, n.blocks[head].number)
    ensures n.blocks[head].number == |n.path| && head == n.path[|n.path| - 1].hash
  {
    var top := HeadExists(n);
    CanonicalRowIs(n, head, n.blocks[head].number);
  }

  lemma MinedBlock(n: Node, hash: Hash, page: seq<TxRef>, failNext: nat, number: nat, m: Mining)
    requires NodeOk(n) && hash !in n.blocks && FromPending(n.txs, page) && number == |n.path| + 1
    requires m == MineAll(StartMining(n, failNext), number, hash, page)
    ensures NodeOk(AddBlock(n, hash, m))
    ensures Mines(n, failNext, hash, page, m.included, AddBlock(n, hash, m))
  {
    MineKeepsNode(n, hash, page, failNext);
    MineIsNodeStep(n, hash, page, failNext);
    StartsMidBlock(n);
    MinedOutcomes(n, hash, page, failNext);
  }

  lemma MinedOutcomes(n: Node, hash: Hash, page: seq<TxRef>, failNext: nat)
    requires MidBlock(n.balances, n.path, []) && FromPending(n.txs, page)
    ensures var included := MineAll(StartMining(n, failNext), |n.path| + 1, hash, page).included;
            && |included| == |page|
            && Follows(n.txs, MineAll(StartMining(n, failNext), |n.path| + 1, hash, page).txs, page, included,
                       |n.path| + 1, hash)
            && (forall k :: 0 <= k < |page| ==> OutcomeOk(n.txs, failNext, n.path, page, included, k))
  {
    var start := StartMining(n, failNext);
    var included := MineAll(start, |n.path| + 1, hash, page).included;
    MineAllFollows(start, |n.path| + 1, hash, page);
    forall k | 0 <= k < |page| ensures OutcomeOk(n.txs, failNext, n.path, page, included, k) {
      Outcomes(start, |n.path| + 1, hash, page, n.path, k);
    }
  }

  lemma GenesisOk(b: Block)
    requires b.number == 1 && b.parent == None && b.txs == []
    ensures NodeOk(Node([b], map[b.hash := b], map[], map[b.hash := BlockRow(1, None, true)], map[]))
  {
    forall a ensures Replay([b], a) == 0 {
      ReplayAppend([], b, a);
      assert [] + [b] == [b];
    }
    forall n, a | 0 <= n <= 1 ensures Replay([b][..n], a) >= 0 {
      assert [b][..n] == if n == 0 then [] else [b];
    }
    var c := Chain([], map[], map[]);
    assert ChainOk(c);
    StepOk(c, Mine(b.hash, []));
  }

  lemma SubmitKeepsNode(n: Node, t: TxRef, tx: Tx)
    requires NodeOk(n) && t !in n.txs && tx.info.amount > 0
    requires tx.status.Pending? && tx.number.None? && tx.block.None? && tx.logIndex.None?
    ensures NodeOk(n.(txs := n.txs[t := tx]))
    ensures ChainOf(n.(txs := n.txs[t := tx])) == NodeNext(ChainOf(n), Submit(t, tx.info))
  {
    var txs := n.txs[t := tx];
    assert Submitted(txs) == Submitted(n.txs)[t := tx.info];
    StepOk(ChainOf(n), Submit(t, tx.info));
    SubmitRows(n.txs, n.path, t, tx);
  }

  lemma SubmitRows(txs: map<TxRef, Tx>, path: seq<Block>, t: TxRef, tx: Tx)
    requires RowsRecord(txs, path) && StatusMatches(txs, path) && t !in txs && tx.info.amount > 0
    requires tx.status.Pending? && tx.number.None? && tx.block.None? && tx.logIndex.None?
    ensures RowsRecord(txs[t := tx], path) && StatusMatches(txs[t := tx], path)
  {
    forall b, x | b in path && x in b.txs ensures RowOf(txs[t := tx], b, x) {
      assert RowOf(txs, b, x);
    }
  }
}
