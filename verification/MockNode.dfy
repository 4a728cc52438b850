/**
  * The tables of the simulated node as values: the mempool and mined transactions, the block rows, the
  * balance cache. The balance cache is proved to be a replay of the canonical path.
  */
module MockNode {
  import opened Events
  import opened Sums
  import opened ChainModel

  datatype TxStatus = Pending | Mined | Failed | Dropped

  datatype Tx = Tx(
    info: TxInfo, failOnMine: bool, created: nat, hash: nat, status: TxStatus,
    number: Option<nat>, block: Option<Hash>, logIndex: Option<nat>)

  datatype BlockRow = BlockRow(number: nat, parent: Option<Hash>, canonical: bool)

  const MAX_TXS_PER_BLOCK: nat := 50

  // ---- balances ----

  function Get(balances: map<Addr, int>, a: Addr): int { if a in balances then balances[a] else 0 }

  function Adjust(balances: map<Addr, int>, a: Addr, delta: int): map<Addr, int>
  {
    balances[a := Get(balances, a) + delta]
  }

  /** `_apply_balances`. */
  function ApplyBalances(balances: map<Addr, int>, info: TxInfo, sign: int): map<Addr, int>
  {
    var debited := if info.isMint then balances else Adjust(balances, info.sender, -sign * info.amount);
    Adjust(debited, info.recipient, sign * info.amount)
  }

  function Delta(info: TxInfo, a: Addr): int
  {
    (if info.recipient == a then info.amount else 0) - (if !info.isMint && info.sender == a then info.amount else 0)
  }

  /** What an included transaction does to an address; a reverted one does nothing. */
  function Effect(a: Addr): Included -> int
  {
    (x: Included) => if x.logIndex.Some? then Delta(x.info, a) else 0
  }

  function BlockEffect(a: Addr): Block -> int
  {
    (b: Block) => Sum(b.txs, Effect(a))
  }

  /** The balance of an address by replaying a path from genesis. */
  function Replay(path: seq<Block>, a: Addr): int { Sum(path, BlockEffect(a)) }

  lemma ApplyIsDelta(balances: map<Addr, int>, info: TxInfo, a: Addr)
    ensures Get(ApplyBalances(balances, info, 1), a) == Get(balances, a) + Delta(info, a)
    ensures Get(ApplyBalances(balances, info, -1), a) == Get(balances, a) - Delta(info, a)
  {
  }

  // ---- mine_block: the loop over the mempool page ----

  datatype Mining = Mining(
    txs: map<TxRef, Tx>, balances: map<Addr, int>, failNext: nat, logIndex: nat, included: seq<Included>)

  predicate Forced(tx: Tx, failNext: nat) { tx.failOnMine || (failNext > 0 && !tx.info.isMint) }

  predicate Reverts(tx: Tx, failNext: nat, balances: map<Addr, int>)
  {
    Forced(tx, failNext)
    || (!tx.info.isMint && (tx.info.sender !in balances || balances[tx.info.sender] < tx.info.amount))
  }

  function FailuresLeft(tx: Tx, failNext: nat): nat
  {
    if Forced(tx, failNext) && !tx.failOnMine then failNext - 1 else failNext
  }

  function MineOne(m: Mining, number: nat, hash: Hash, t: TxRef): Mining
    requires t in m.txs
  {
    var tx := m.txs[t].(number := Some(number), block := Some(hash));
    var left := FailuresLeft(tx, m.failNext);
    if Reverts(tx, m.failNext, m.balances) then
      Mining(m.txs[t := tx.(status := Failed, logIndex := None)], m.balances, left, m.logIndex,
             m.included + [Included(t, tx.info, None)])
    else
      Mining(m.txs[t := tx.(status := Mined, logIndex := Some(m.logIndex))],
             ApplyBalances(m.balances, tx.info, 1), left, m.logIndex + 1,
             m.included + [Included(t, tx.info, Some(m.logIndex))])
  }

  function MineAll(m: Mining, number: nat, hash: Hash, batch: seq<TxRef>): (r: Mining)
    requires forall t :: t in batch ==> t in m.txs
    ensures r.txs.Keys == m.txs.Keys
  {
    if batch == [] then m
    else MineOne(MineAll(m, number, hash, batch[..|batch| - 1]), number, hash, batch[|batch| - 1])
  }

  // ---- reorg: undoing the transactions of one orphaned block, in any order ----

  datatype Undo = Undo(txs: map<TxRef, Tx>, balances: map<Addr, int>)

  function Returned(tx: Tx, dropped: bool): Tx
  {
    tx.(number := None, block := None, logIndex := None, status := if dropped then Dropped else Pending)
  }

  function UndoOne(u: Undo, t: TxRef, drop: set<TxRef>): Undo
    requires t in u.txs
  {
    var tx := u.txs[t];
    Undo(u.txs[t := Returned(tx, t in drop)],
         if tx.status.Mined? then ApplyBalances(u.balances, tx.info, -1) else u.balances)
  }

  // ---- what the tables mean ----

  function Submitted(txs: map<TxRef, Tx>): map<TxRef, TxInfo> { map t | t in txs :: txs[t].info }

  /** The row of a transaction records the block that includes it. */
  predicate RowOf(txs: map<TxRef, Tx>, b: Block, x: Included)
  {
    && x.tx in txs
    && txs[x.tx].info == x.info && txs[x.tx].number == Some(b.number) && txs[x.tx].block == Some(b.hash)
    && txs[x.tx].logIndex == x.logIndex
    && txs[x.tx].status == if x.logIndex.Some? then Mined else Failed
  }

  ghost predicate RowsRecord(txs: map<TxRef, Tx>, path: seq<Block>)
  {
    forall b, x {:trigger RowOf(txs, b, x)} :: b in path && x in b.txs ==> RowOf(txs, b, x)
  }

  predicate OnChain(tx: Tx) { tx.status.Mined? || tx.status.Failed? }

  /** A transaction is MINED or FAILED exactly when a canonical block includes it. */
  ghost predicate StatusMatches(txs: map<TxRef, Tx>, path: seq<Block>)
  {
    && (forall t :: t in txs ==> txs[t].info.amount > 0)
    && (forall t {:trigger OnChain(txs[t])} :: t in txs && OnChain(txs[t]) ==> exists b :: b in path && HasTx(b, t))
    && (forall t {:trigger OnChain(txs[t])} :: t in txs && !OnChain(txs[t]) ==>
          txs[t].number.None? && txs[t].block.None? && txs[t].logIndex.None?)
  }

  ghost predicate CanonicalAre(blocks: map<Hash, BlockRow>, path: seq<Block>, archive: map<Hash, Block>)
  {
    && blocks.Keys == archive.Keys
    && (forall h :: h in blocks ==> blocks[h].number == archive[h].number && blocks[h].parent == archive[h].parent)
    && (forall h {:trigger FlagTells(blocks, path, h)} :: h in blocks ==> FlagTells(blocks, path, h))
  }

  /** The canonical flag says whether the path has this block at its height. */
  predicate FlagTells(blocks: map<Hash, BlockRow>, path: seq<Block>, h: Hash)
    requires h in blocks
  {
    blocks[h].canonical <==> HashAt(path, blocks[h].number) == Some(h)
  }

  ghost predicate CacheIsReplay(balances: map<Addr, int>, path: seq<Block>)
  {
    && (forall a :: Get(balances, a) == Replay(path, a))
    && (forall b, x :: b in path && x in b.txs && x.logIndex.Some? ==>
          x.info.recipient in balances && (!x.info.isMint ==> x.info.sender in balances))
  }

  /** Nobody is overdrawn at any canonical height. */
  ghost predicate NeverNegative(path: seq<Block>)
  {
    forall n, a :: 0 <= n <= |path| ==> Replay(path[..n], a) >= 0
  }

  datatype Node = Node(
    path: seq<Block>, archive: map<Hash, Block>,
    txs: map<TxRef, Tx>, blocks: map<Hash, BlockRow>, balances: map<Addr, int>)

  function ChainOf(n: Node): Chain { Chain(n.path, n.archive, Submitted(n.txs)) }

  ghost predicate NodeOk(n: Node)
  {
    && ChainOk(ChainOf(n))
    && RowsRecord(n.txs, n.path)
    && StatusMatches(n.txs, n.path)
    && CanonicalAre(n.blocks, n.path, n.archive)
    && CacheIsReplay(n.balances, n.path)
    && NeverNegative(n.path)
  }

  // ---- mining keeps it ----

  lemma ReplayAppend(path: seq<Block>, b: Block, a: Addr)
    ensures Replay(path + [b], a) == Replay(path, a) + Sum(b.txs, Effect(a))
  {
    SumAppend(path, b, BlockEffect(a));
  }

  /** The cache in the middle of a block: the path so far plus the transactions already executed. */
  ghost predicate MidBlock(balances: map<Addr, int>, path: seq<Block>, included: seq<Included>)
  {
    && (forall a :: Get(balances, a) == Replay(path, a) + Sum(included, Effect(a)))
    && (forall a :: Get(balances, a) >= 0)
  }

  lemma ExecutionKeepsCache(balances: map<Addr, int>, path: seq<Block>, included: seq<Included>, x: Included)
    requires MidBlock(balances, path, included) && x.info.amount > 0
    requires x.logIndex.Some? && !x.info.isMint ==> Get(balances, x.info.sender) >= x.info.amount
    ensures MidBlock(if x.logIndex.Some? then ApplyBalances(balances, x.info, 1) else balances, path, included + [x])
  {
    var after := if x.logIndex.Some? then ApplyBalances(balances, x.info, 1) else balances;
    forall a ensures Get(after, a) == Replay(path, a) + Sum(included + [x], Effect(a)) && Get(after, a) >= 0 {
      assert Get(balances, a) >= 0;
      SumAppend(included, x, Effect(a));
      ApplyIsDelta(balances, x.info, a);
    }
  }

  ghost predicate Distinct<T(!new)>(s: seq<T>)
  {
    forall i, j :: 0 <= i < j < |s| ==> s[i] != s[j]
  }

  /** A page of the mempool: pending transactions, none twice. */
  ghost predicate FromPending(txs: map<TxRef, Tx>, batch: seq<TxRef>)
  {
    && Distinct(batch)
    && forall t :: t in batch ==> t in txs && txs[t].status.Pending? && txs[t].info.amount > 0
  }

  /** The order and the terms of a block are those of the page; other rows are untouched. */
  ghost predicate Follows(
      before: map<TxRef, Tx>, after: map<TxRef, Tx>, batch: seq<TxRef>, included: seq<Included>, number: nat,
      hash: Hash)
    requires forall t :: t in batch ==> t in before
  {
    && |included| == |batch|
    && after.Keys == before.Keys
    && (forall k :: 0 <= k < |batch| ==> included[k].tx == batch[k] && included[k].info == before[batch[k]].info)
    && (forall k :: 0 <= k < |batch| ==> after[batch[k]] == Placed(before[batch[k]], included[k], number, hash))
    && (forall t :: t in before && t !in batch ==> after[t] == before[t])
  }

  function Placed(tx: Tx, x: Included, number: nat, hash: Hash): Tx
  {
    tx.(number := Some(number), block := Some(hash), logIndex := x.logIndex,
        status := if x.logIndex.Some? then Mined else Failed)
  }

  function Verdict(m: Mining, t: TxRef): Included
    requires t in m.txs
  {
    Included(t, m.txs[t].info, if Reverts(m.txs[t], m.failNext, m.balances) then None else Some(m.logIndex))
  }

  lemma MineOneIs(m: Mining, number: nat, hash: Hash, t: TxRef)
    requires t in m.txs
    ensures var x := Verdict(m, t);
            MineOne(m, number, hash, t) ==
            Mining(m.txs[t := Placed(m.txs[t], x, number, hash)],
                   if x.logIndex.Some? then ApplyBalances(m.balances, x.info, 1) else m.balances,
                   FailuresLeft(m.txs[t], m.failNext),
                   if x.logIndex.Some? then m.logIndex + 1 else m.logIndex,
                   m.included + [x])
  {
  }

  lemma FollowsStep(
      before: map<TxRef, Tx>, after: map<TxRef, Tx>, front: seq<TxRef>, included: seq<Included>, number: nat,
      hash: Hash, t: TxRef, x: Included)
    requires (forall u :: u in front ==> u in before) && Follows(before, after, front, included, number, hash)
    requires t in before && t !in front && x.tx == t && x.info == before[t].info
    ensures Follows(before, after[t := Placed(before[t], x, number, hash)], front + [t], included + [x], number, hash)
  {
  }

  lemma {:induction false} MineAllFollows(m: Mining, number: nat, hash: Hash, batch: seq<TxRef>)
    requires FromPending(m.txs, batch) && m.included == []
    ensures var r := MineAll(m, number, hash, batch); Follows(m.txs, r.txs, batch, r.included, number, hash)
    decreases |batch|, 1
  {
    if batch != [] {
      var q := MiningFront(m, number, hash, batch);
      var t := batch[|batch| - 1];
      FollowsStep(m.txs, q.txs, batch[..|batch| - 1], q.included, number, hash, t, Verdict(q, t));
    }
  }

  /** The state before the last transaction of a page, which is still as it was in the mempool. */
  lemma MiningFront(m: Mining, number: nat, hash: Hash, batch: seq<TxRef>) returns (q: Mining)
    requires FromPending(m.txs, batch) && m.included == [] && batch != []
    ensures q == MineAll(m, number, hash, batch[..|batch| - 1])
    ensures var t := batch[|batch| - 1];
            && FromPending(m.txs, batch[..|batch| - 1])
            && batch == batch[..|batch| - 1] + [t] && t !in batch[..|batch| - 1]
            && q.txs[t] == m.txs[t]
            && |q.included| == |batch| - 1
            && Follows(m.txs, q.txs, batch[..|batch| - 1], q.included, number, hash)
            && MineAll(m, number, hash, batch) ==
               Mining(q.txs[t := Placed(m.txs[t], Verdict(q, t), number, hash)],
                      if Verdict(q, t).logIndex.Some? then ApplyBalances(q.balances, m.txs[t].info, 1) else q.balances,
                      FailuresLeft(m.txs[t], q.failNext),
                      if Verdict(q, t).logIndex.Some? then q.logIndex + 1 else q.logIndex,
                      q.included + [Verdict(q, t)])
    decreases |batch|, 0
  {
    var front, t := batch[..|batch| - 1], batch[|batch| - 1];
    assert batch == front + [t];
    MineAllFollows(m, number, hash, front);
    q := MineAll(m, number, hash, front);
    MineOneIs(q, number, hash, t);
  }

  ghost predicate PartiesKnown(balances: map<Addr, int>, included: seq<Included>)
  {
    forall x :: x in included && x.logIndex.Some? ==>
      x.info.recipient in balances && (!x.info.isMint ==> x.info.sender in balances)
  }

  lemma {:induction false} MineAllCache(m: Mining, number: nat, hash: Hash, batch: seq<TxRef>, path: seq<Block>)
    requires FromPending(m.txs, batch) && m.included == [] && MidBlock(m.balances, path, [])
    ensures var r := MineAll(m, number, hash, batch);
            && MidBlock(r.balances, path, r.included)
            && PartiesKnown(r.balances, r.included)
            && m.balances.Keys <= r.balances.Keys
  {
    if batch != [] {
      var q := MiningFront(m, number, hash, batch);
      MineAllCache(m, number, hash, batch[..|batch| - 1], path);
      ExecutionKeepsCache(q.balances, path, q.included, Verdict(q, batch[|batch| - 1]));
    }
  }

  // ---- which transactions revert, said without the loop ----

  /** Transactions of a page prefix that use up one injected failure. */
  function Absorbers(txs: map<TxRef, Tx>, batch: seq<TxRef>): nat
    requires forall t :: t in batch ==> t in txs
  {
    if batch == [] then 0
    else
      var tx := txs[batch[|batch| - 1]];
      Absorbers(txs, batch[..|batch| - 1]) + (if !tx.info.isMint && !tx.failOnMine then 1 else 0)
  }

  function MinedBefore(included: seq<Included>): nat
  {
    if included == [] then 0
    else MinedBefore(included[..|included| - 1]) + (if included[|included| - 1].logIndex.Some? then 1 else 0)
  }

  /** The outcome of transaction `k` of a page: reverted when forced or short of tokens, else logged next. */
  ghost predicate OutcomeOk(
      txs: map<TxRef, Tx>, failNext: nat, path: seq<Block>, batch: seq<TxRef>, included: seq<Included>, k: nat)
    requires k < |batch| == |included| && forall t :: t in batch ==> t in txs
  {
    var tx := txs[batch[k]];
    var forced := tx.failOnMine || (!tx.info.isMint && Absorbers(txs, batch[..k]) < failNext);
    var funded := || tx.info.isMint
                  || Replay(path, tx.info.sender) + Sum(included[..k], Effect(tx.info.sender)) >= tx.info.amount;
    included[k].logIndex == if !forced && funded then Some(MinedBefore(included[..k])) else None
  }

  lemma {:induction false} Counters(m: Mining, number: nat, hash: Hash, batch: seq<TxRef>)
    requires FromPending(m.txs, batch) && m.included == [] && m.logIndex == 0
    ensures var r := MineAll(m, number, hash, batch);
            && r.logIndex == MinedBefore(r.included)
            && r.failNext == if Absorbers(m.txs, batch) <= m.failNext then m.failNext - Absorbers(m.txs, batch) else 0
  {
    if batch != [] {
      var q := MiningFront(m, number, hash, batch);
      Counters(m, number, hash, batch[..|batch| - 1]);
      MinedAppend(q.included, Verdict(q, batch[|batch| - 1]));
    }
  }

  lemma MinedAppend(included: seq<Included>, x: Included)
    ensures MinedBefore(included + [x]) == MinedBefore(included) + if x.logIndex.Some? then 1 else 0
  {
    assert (included + [x])[..|included|] == included;
  }

  /** What follows in the page does not change an outcome. */
  lemma EarlierOutcome(
      txs: map<TxRef, Tx>, failNext: nat, path: seq<Block>, front: seq<TxRef>, t: TxRef, included: seq<Included>,
      x: Included, k: nat)
    requires k < |front| == |included| && t in txs && forall u :: u in front ==> u in txs
    requires OutcomeOk(txs, failNext, path, front, included, k)
    ensures OutcomeOk(txs, failNext, path, front + [t], included + [x], k)
  {
    assert (included + [x])[..k] == included[..k] && (front + [t])[..k] == front[..k];
  }

  lemma LastOutcome(q: Mining, t: TxRef, failNext: nat, absorbed: nat, path: seq<Block>)
    requires t in q.txs && q.txs[t].info.amount > 0 && MidBlock(q.balances, path, q.included)
    requires q.logIndex == MinedBefore(q.included)
    requires q.failNext == if absorbed <= failNext then failNext - absorbed else 0
    ensures var tx := q.txs[t];
            var forced := tx.failOnMine || (!tx.info.isMint && absorbed < failNext);
            var funded := || tx.info.isMint
                          || Replay(path, tx.info.sender) + Sum(q.included, Effect(tx.info.sender)) >= tx.info.amount;
            Verdict(q, t).logIndex == if !forced && funded then Some(MinedBefore(q.included)) else None
  {
    var sender := q.txs[t].info.sender;
    assert Get(q.balances, sender) == Replay(path, sender) + Sum(q.included, Effect(sender));
  }

  /** A block reverts exactly the forced and the unfunded transactions, and numbers the rest in order. */
  lemma {:induction false} Outcomes(m: Mining, number: nat, hash: Hash, batch: seq<TxRef>, path: seq<Block>, k: nat)
    requires FromPending(m.txs, batch) && m.included == [] && m.logIndex == 0 && MidBlock(m.balances, path, [])
    requires k < |batch|
    ensures |MineAll(m, number, hash, batch).included| == |batch|
    ensures OutcomeOk(m.txs, m.failNext, path, batch, MineAll(m, number, hash, batch).included, k)
  {
    var q := MiningFront(m, number, hash, batch);
    var last := |batch| - 1;
    var front, x := batch[..last], Verdict(q, batch[last]);
    if k < last {
      Outcomes(m, number, hash, front, path, k);
      EarlierOutcome(m.txs, m.failNext, path, front, batch[last], q.included, x, k);
    } else {
      Counters(m, number, hash, front);
      MineAllCache(m, number, hash, front, path);
      assert (q.included + [x])[..k] == q.included;
      LastOutcome(q, batch[last], m.failNext, Absorbers(m.txs, front), path);
    }
  }

  // ---- a mined block keeps the node consistent ----

  function StartMining(n: Node, failNext: nat): Mining { Mining(n.txs, n.balances, failNext, 0, []) }

  function AddBlock(n: Node, hash: Hash, m: Mining): Node
  {
    var b := NewBlock(ChainOf(n), hash, m.included);
    Node(n.path + [b], n.archive[hash := b], m.txs, n.blocks[hash := BlockRow(b.number, b.parent, true)], m.balances)
  }

  /** A pending transaction is in no canonical block. */
  lemma PendingIsOff(n: Node, t: TxRef)
    requires RowsRecord(n.txs, n.path) && t in n.txs && n.txs[t].status.Pending?
    ensures forall b :: b in n.path ==> !HasTx(b, t)
  {
    forall b | b in n.path ensures !HasTx(b, t) {
      forall x | x in b.txs ensures x.tx != t {
        assert RowOf(n.txs, b, x);
      }
    }
  }

  lemma SubmittedFollows(
      txs: map<TxRef, Tx>, after: map<TxRef, Tx>, batch: seq<TxRef>, included: seq<Included>, number: nat, hash: Hash)
    requires FromPending(txs, batch) && Follows(txs, after, batch, included, number, hash)
    ensures Submitted(after) == Submitted(txs)
    ensures FromMempool(included, Submitted(txs)) && DistinctTxs(included)
  {
    forall t | t in txs ensures after[t].info == txs[t].info {
      if t in batch {
        var k :| 0 <= k < |batch| && batch[k] == t;
        assert after[batch[k]] == Placed(txs[batch[k]], included[k], number, hash);
      }
    }
    forall x | x in included ensures x.tx in Submitted(txs) && Submitted(txs)[x.tx] == x.info && x.info.amount > 0 {
      var k :| 0 <= k < |included| && included[k] == x;
      assert included[k].tx == batch[k] && batch[k] in batch;
    }
    forall k, l | 0 <= k < l < |included| ensures included[k].tx != included[l].tx {
      assert included[k].tx == batch[k] && included[l].tx == batch[l];
    }
  }

  lemma PageIsOff(n: Node, batch: seq<TxRef>, included: seq<Included>)
    requires RowsRecord(n.txs, n.path) && FromPending(n.txs, batch)
    requires |included| == |batch| && forall k :: 0 <= k < |batch| ==> included[k].tx == batch[k]
    ensures forall x, b :: x in included && b in n.path ==> !HasTx(b, x.tx)
  {
    forall x, b | x in included && b in n.path ensures !HasTx(b, x.tx) {
      var k :| 0 <= k < |included| && included[k] == x;
      assert included[k].tx == batch[k] && batch[k] in batch;
      PendingIsOff(n, x.tx);
    }
  }

  lemma MineIsNodeStep(n: Node, hash: Hash, batch: seq<TxRef>, failNext: nat)
    requires NodeOk(n) && hash !in n.blocks && FromPending(n.txs, batch)
    ensures var m := MineAll(StartMining(n, failNext), |n.path| + 1, hash, batch);
            && NodeEnabled(ChainOf(n), Mine(hash, m.included))
            && ChainOf(AddBlock(n, hash, m)) == NodeNext(ChainOf(n), Mine(hash, m.included))
            && ChainOk(ChainOf(AddBlock(n, hash, m)))
  {
    var m := MineAll(StartMining(n, failNext), |n.path| + 1, hash, batch);
    MineAllFollows(StartMining(n, failNext), |n.path| + 1, hash, batch);
    SubmittedFollows(n.txs, m.txs, batch, m.included, |n.path| + 1, hash);
    PageIsOff(n, batch, m.included);
    StepOk(ChainOf(n), Mine(hash, m.included));
  }

  lemma RowsAfterMining(txs: map<TxRef, Tx>, path: seq<Block>, after: map<TxRef, Tx>, batch: seq<TxRef>, b: Block)
    requires RowsRecord(txs, path) && FromPending(txs, batch) && Follows(txs, after, batch, b.txs, b.number, b.hash)
    ensures RowsRecord(after, path + [b])
  {
    forall c, x | c in path + [b] && x in c.txs ensures RowOf(after, c, x) {
      if c in path {
        assert RowOf(txs, c, x);
        assert x.tx !in batch;
      } else {
        var k :| 0 <= k < |b.txs| && b.txs[k] == x;
        assert b.txs[k].tx == batch[k] && after[batch[k]] == Placed(txs[batch[k]], b.txs[k], b.number, b.hash);
      }
    }
  }

  lemma StatusAfterMining(txs: map<TxRef, Tx>, path: seq<Block>, after: map<TxRef, Tx>, batch: seq<TxRef>, b: Block)
    requires StatusMatches(txs, path) && FromPending(txs, batch) && Follows(txs, after, batch, b.txs, b.number, b.hash)
    ensures StatusMatches(after, path + [b])
  {
    forall t | t in after
      ensures after[t].info.amount > 0
      ensures OnChain(after[t]) ==> exists c :: c in path + [b] && HasTx(c, t)
      ensures !OnChain(after[t]) ==> after[t].number.None? && after[t].block.None? && after[t].logIndex.None?
    {
      if t in batch {
        var k :| 0 <= k < |batch| && batch[k] == t;
        assert after[batch[k]] == Placed(txs[batch[k]], b.txs[k], b.number, b.hash);
        assert b.txs[k].tx == t && HasTx(b, t);
        assert (path + [b])[|path|] == b;
      } else if OnChain(txs[t]) {
        var c :| c in path && HasTx(c, t);
        assert c in path + [b];
      }
    }
  }

  lemma CacheAfterMining(balances: map<Addr, int>, path: seq<Block>, after: map<Addr, int>, b: Block)
    requires CacheIsReplay(balances, path) && NeverNegative(path)
    requires MidBlock(after, path, b.txs) && PartiesKnown(after, b.txs) && balances.Keys <= after.Keys
    ensures CacheIsReplay(after, path + [b]) && NeverNegative(path + [b])
  {
    forall a ensures Get(after, a) == Replay(path + [b], a) && Replay(path + [b], a) >= 0 {
      ReplayAppend(path, b, a);
      assert Get(after, a) >= 0;
    }
    forall n, a | 0 <= n <= |path + [b]| ensures Replay((path + [b])[..n], a) >= 0 {
      if n <= |path| {
        assert (path + [b])[..n] == path[..n];
        assert Replay(path[..n], a) >= 0;
      } else {
        assert (path + [b])[..n] == path + [b];
      }
    }
  }

  lemma CanonicalAfterMining(blocks: map<Hash, BlockRow>, path: seq<Block>, archive: map<Hash, Block>, b: Block)
    requires CanonicalAre(blocks, path, archive) && b.hash !in blocks && b.number == |path| + 1
    ensures CanonicalAre(blocks[b.hash := BlockRow(b.number, b.parent, true)], path + [b], archive[b.hash := b])
  {
    var after := blocks[b.hash := BlockRow(b.number, b.parent, true)];
    forall h | h in after ensures FlagTells(after, path + [b], h) {
      assert h in blocks ==> FlagTells(blocks, path, h);
    }
  }

  lemma MineKeepsTables(n: Node, hash: Hash, batch: seq<TxRef>, failNext: nat)
    requires RowsRecord(n.txs, n.path) && StatusMatches(n.txs, n.path) && CanonicalAre(n.blocks, n.path, n.archive)
    requires hash !in n.blocks && FromPending(n.txs, batch)
    ensures var after := AddBlock(n, hash, MineAll(StartMining(n, failNext), |n.path| + 1, hash, batch));
            && RowsRecord(after.txs, after.path) && StatusMatches(after.txs, after.path)
            && CanonicalAre(after.blocks, after.path, after.archive)
  {
    var m := MineAll(StartMining(n, failNext), |n.path| + 1, hash, batch);
    var b := NewBlock(ChainOf(n), hash, m.included);
    MineAllFollows(StartMining(n, failNext), |n.path| + 1, hash, batch);
    RowsAfterMining(n.txs, n.path, m.txs, batch, b);
    StatusAfterMining(n.txs, n.path, m.txs, batch, b);
    CanonicalAfterMining(n.blocks, n.path, n.archive, b);
  }

  lemma MineKeepsCache(n: Node, hash: Hash, batch: seq<TxRef>, failNext: nat)
    requires CacheIsReplay(n.balances, n.path) && NeverNegative(n.path) && FromPending(n.txs, batch)
    ensures var after := AddBlock(n, hash, MineAll(StartMining(n, failNext), |n.path| + 1, hash, batch));
            CacheIsReplay(after.balances, after.path) && NeverNegative(after.path)
  {
    var m := MineAll(StartMining(n, failNext), |n.path| + 1, hash, batch);
    StartsMidBlock(n);
    MineAllCache(StartMining(n, failNext), |n.path| + 1, hash, batch, n.path);
    CacheAfterMining(n.balances, n.path, m.balances, NewBlock(ChainOf(n), hash, m.included));
  }

  /** Mining a page, or an empty block while mining is halted, keeps every invariant of the node. */
  lemma MineKeepsNode(n: Node, hash: Hash, batch: seq<TxRef>, failNext: nat)
    requires NodeOk(n) && hash !in n.blocks && FromPending(n.txs, batch)
    ensures NodeOk(AddBlock(n, hash, MineAll(StartMining(n, failNext), |n.path| + 1, hash, batch)))
  {
    MineIsNodeStep(n, hash, batch, failNext);
    MineKeepsTables(n, hash, batch, failNext);
    MineKeepsCache(n, hash, batch, failNext);
  }

  lemma StartsMidBlock(n: Node)
    requires CacheIsReplay(n.balances, n.path) && NeverNegative(n.path)
    ensures MidBlock(n.balances, n.path, [])
  {
    assert n.path[..|n.path|] == n.path;
    forall a ensures Get(n.balances, a) >= 0 {
      assert Replay(n.path[..|n.path|], a) >= 0;
    }
  }
}
