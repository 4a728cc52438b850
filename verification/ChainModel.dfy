/**
  * The node seen from outside: every block ever mined, and the canonical path through them.
  * A block's content never changes; only which blocks are canonical does.
  */
module ChainModel {
  import opened Events

  datatype TxInfo = TxInfo(sender: Addr, recipient: Addr, amount: int, isMint: bool)

  /** A transaction inside a block: MINED with its log index, or FAILED (no log). */
  datatype Included = Included(tx: TxRef, info: TxInfo, logIndex: Option<nat>)

  datatype Block = Block(number: nat, hash: Hash, parent: Option<Hash>, txs: seq<Included>)

  datatype Chain = Chain(path: seq<Block>, blocks: map<Hash, Block>, submitted: map<TxRef, TxInfo>)

  const GENESIS_NUMBER: nat := 1

  /** `get_block_hash`: the canonical hash at a height, if there is one. */
  function HashAt(path: seq<Block>, n: nat): Option<Hash>
  {
    if 1 <= n <= |path| then Some(path[n - 1].hash) else None
  }

  predicate OnPath(c: Chain, h: Hash)
  {
    h in c.blocks && HashAt(c.path, c.blocks[h].number) == Some(h)
  }

  predicate Orphaned(c: Chain, h: Hash)
  {
    h in c.blocks && !OnPath(c, h)
  }

  predicate HasTx(b: Block, tx: TxRef) { exists x :: x in b.txs && x.tx == tx }

  predicate HasLog(b: Block, id: DepositId)
  {
    exists x :: x in b.txs && x.tx == id.tx && x.logIndex == Some(id.logIndex)
  }

  predicate HasLogTo(b: Block, id: DepositId, to: Addr)
  {
    exists x :: x in b.txs && x.tx == id.tx && x.logIndex == Some(id.logIndex) && x.info.recipient == to
  }

  /** `get_receipt`: the canonical block a transaction was mined or reverted in. */
  function ReceiptIndex(path: seq<Block>, tx: TxRef): (r: Option<nat>)
    ensures r.Some? ==> r.value < |path| && HasTx(path[r.value], tx)
    ensures r.None? ==> forall b :: b in path ==> !HasTx(b, tx)
  {
    if path == [] then None
    else if HasTx(path[|path| - 1], tx) then Some(|path| - 1)
    else ReceiptIndex(path[..|path| - 1], tx)
  }

  // ---- invariants ----

  /** Contiguous numbers from genesis, each block naming its predecessor's hash. */
  ghost predicate Linked(path: seq<Block>)
  {
    && (forall i {:trigger path[i].number} :: 0 <= i < |path| ==> path[i].number == i + 1)
    && (forall i {:trigger ParentAt(path, i)} :: 0 <= i < |path| ==> ParentAt(path, i))
  }

  predicate ParentAt(path: seq<Block>, i: nat)
    requires i < |path|
  {
    path[i].parent == HashAt(path, i)
  }

  ghost predicate Stored(path: seq<Block>, blocks: map<Hash, Block>)
  {
    forall i :: 0 <= i < |path| ==> path[i].hash in blocks && blocks[path[i].hash] == path[i]
  }

  ghost predicate TxOnce(path: seq<Block>)
  {
    && (forall i, j, tx :: 0 <= i < j < |path| && HasTx(path[i], tx) ==> !HasTx(path[j], tx))
    && (forall i :: 0 <= i < |path| ==> DistinctTxs(path[i].txs))
  }

  ghost predicate DistinctTxs(txs: seq<Included>)
  {
    forall k, l :: 0 <= k < l < |txs| ==> txs[k].tx != txs[l].tx
  }

  ghost predicate FromMempool(txs: seq<Included>, submitted: map<TxRef, TxInfo>)
  {
    forall x :: x in txs ==> x.tx in submitted && submitted[x.tx] == x.info && x.info.amount > 0
  }

  ghost predicate ChainOk(c: Chain)
  {
    && Linked(c.path)
    && Stored(c.path, c.blocks)
    && TxOnce(c.path)
    && (forall h :: h in c.blocks ==> c.blocks[h].hash == h && FromMempool(c.blocks[h].txs, c.submitted))
  }

  // ---- steps ----

  datatype NodeStep =
    | Submit(tx: TxRef, info: TxInfo)
    | Mine(hash: Hash, txs: seq<Included>)
    | Orphan(keep: nat)

  ghost predicate NodeEnabled(c: Chain, s: NodeStep)
  {
    match s
    case Submit(_, info) => info.amount > 0
    case Mine(hash, txs) =>
      && hash !in c.blocks
      && DistinctTxs(txs)
      && FromMempool(txs, c.submitted)
      && (forall x, b :: x in txs && b in c.path ==> !HasTx(b, x.tx))
    case Orphan(keep) => 1 <= keep <= |c.path|
  }

  function NewBlock(c: Chain, hash: Hash, txs: seq<Included>): Block
  {
    Block(|c.path| + 1, hash, HashAt(c.path, |c.path|), txs)
  }

  function NodeNext(c: Chain, s: NodeStep): Chain
  {
    match s
    case Submit(tx, info) => if tx in c.submitted then c else c.(submitted := c.submitted[tx := info])
    case Mine(hash, txs) =>
      var b := NewBlock(c, hash, txs);
      c.(path := c.path + [b], blocks := c.blocks[hash := b])
    case Orphan(keep) => if keep <= |c.path| then c.(path := c.path[..keep]) else c
  }

  // ---- what every step keeps ----

  lemma StepOk(c: Chain, s: NodeStep)
    requires ChainOk(c) && NodeEnabled(c, s)
    ensures ChainOk(NodeNext(c, s))
  {
    match s
    case Submit(_, _) =>
    case Orphan(keep) =>
      forall i | 0 <= i < keep ensures ParentAt(c.path[..keep], i) {
        assert ParentAt(c.path, i);
      }
    case Mine(hash, txs) => MineOk(c, hash, txs);
  }

  lemma MineOk(c: Chain, hash: Hash, txs: seq<Included>)
    requires ChainOk(c) && NodeEnabled(c, Mine(hash, txs))
    ensures ChainOk(NodeNext(c, Mine(hash, txs)))
  {
    var b := NewBlock(c, hash, txs);
    var path := c.path + [b];
    forall i | 0 <= i < |path| ensures ParentAt(path, i) {
      if i < |c.path| {
        assert ParentAt(c.path, i);
      }
    }
    forall i, j, tx | 0 <= i < j < |path| && HasTx(path[i], tx) ensures !HasTx(path[j], tx) {
      if j == |c.path| {
        assert path[i] == c.path[i] && c.path[i] in c.path;
      }
    }
  }

  /** Blocks are never forgotten, and a block that left the canonical path never comes back. */
  lemma NeverReturns(c: Chain, s: NodeStep, h: Hash)
    requires ChainOk(c) && NodeEnabled(c, s) && h in c.blocks
    ensures h in NodeNext(c, s).blocks && NodeNext(c, s).blocks[h] == c.blocks[h]
    ensures OnPath(NodeNext(c, s), h) ==> OnPath(c, h)
    ensures Orphaned(c, h) ==> Orphaned(NodeNext(c, s), h)
  {
  }

  ghost predicate ValidNodeRun(c: Chain, steps: seq<NodeStep>)
    decreases |steps|
  {
    steps == [] || (NodeEnabled(c, steps[0]) && ValidNodeRun(NodeNext(c, steps[0]), steps[1..]))
  }

  function NodeRun(c: Chain, steps: seq<NodeStep>): Chain
    decreases |steps|
  {
    if steps == [] then c else NodeRun(NodeNext(c, steps[0]), steps[1..])
  }

  lemma {:induction false} RunOk(c: Chain, steps: seq<NodeStep>)
    requires ChainOk(c) && ValidNodeRun(c, steps)
    ensures ChainOk(NodeRun(c, steps))
    ensures forall h :: h in c.blocks ==> h in NodeRun(c, steps).blocks && NodeRun(c, steps).blocks[h] == c.blocks[h]
    ensures forall h :: Orphaned(c, h) ==> Orphaned(NodeRun(c, steps), h)
    decreases |steps|
  {
    if steps != [] {
      var c1 := NodeNext(c, steps[0]);
      StepOk(c, steps[0]);
      RunOk(c1, steps[1..]);
      forall h | h in c.blocks
        ensures h in c1.blocks && c1.blocks[h] == c.blocks[h] && (Orphaned(c, h) ==> Orphaned(c1, h))
      {
        NeverReturns(c, steps[0], h);
      }
    }
  }

  /** Two linked paths over one block store that agree on the hash at a height agree on everything below it. */
  lemma {:induction false} HashFixesPrefix(p: seq<Block>, q: seq<Block>, blocks: map<Hash, Block>, n: nat)
    requires Linked(p) && Linked(q) && Stored(p, blocks) && Stored(q, blocks)
    requires 1 <= n <= |p| && n <= |q| && p[n - 1].hash == q[n - 1].hash
    ensures p[..n] == q[..n]
  {
    assert p[n - 1] == q[n - 1];
    if n > 1 {
      assert ParentAt(p, n - 1) && ParentAt(q, n - 1);
      HashFixesPrefix(p, q, blocks, n - 1);
      assert p[..n] == p[..n - 1] + [p[n - 1]] && q[..n] == q[..n - 1] + [q[n - 1]];
    }
  }

  /** An unchanged hash at height `n` means that no block at or below `n` changed, over any run. */
  lemma UnchangedHashUnchangedHistory(c: Chain, steps: seq<NodeStep>, n: nat)
    requires ChainOk(c) && ValidNodeRun(c, steps)
    requires HashAt(c.path, n).Some? && HashAt(NodeRun(c, steps).path, n) == HashAt(c.path, n)
    ensures NodeRun(c, steps).path[..n] == c.path[..n]
  {
    RunOk(c, steps);
    var d := NodeRun(c, steps);
    assert Stored(c.path, d.blocks) by {
      forall i | 0 <= i < |c.path| ensures c.path[i].hash in d.blocks && d.blocks[c.path[i].hash] == c.path[i] {
      }
    }
    HashFixesPrefix(d.path, c.path, d.blocks, n);
  }

  /** A transaction has one receipt: the block found is the only canonical block that holds it. */
  lemma {:induction false} ReceiptIsUnique(path: seq<Block>, tx: TxRef, i: nat)
    requires (forall k, l :: 0 <= k < l < |path| && HasTx(path[k], tx) ==> !HasTx(path[l], tx))
    requires i < |path| && HasTx(path[i], tx)
    ensures ReceiptIndex(path, tx) == Some(i)
  {
    if i < |path| - 1 {
      ReceiptIsUnique(path[..|path| - 1], tx, i);
    }
  }

  /** `c` shares the first `keep` blocks with `base`; everything above was mined since. */
  ghost predicate Forked(base: Chain, keep: nat, c: Chain)
  {
    && keep <= |base.path| && keep <= |c.path| && c.path[..keep] == base.path[..keep]
    && (forall i :: keep <= i < |c.path| ==> c.path[i].hash !in base.blocks)
    && (forall h :: h in base.blocks ==> h in c.blocks && c.blocks[h] == base.blocks[h])
  }

  lemma ForkGrows(base: Chain, keep: nat, c: Chain, hash: Hash, txs: seq<Included>)
    requires Forked(base, keep, c) && NodeEnabled(c, Mine(hash, txs))
    ensures Forked(base, keep, NodeNext(c, Mine(hash, txs)))
  {
    assert (c.path + [NewBlock(c, hash, txs)])[..keep] == c.path[..keep];
  }

  function MineCount(steps: seq<NodeStep>): nat
  {
    if steps == [] then 0 else MineCount(steps[1..]) + if steps[0].Mine? then 1 else 0
  }

  /**
    * A reorg of `orphaned` blocks followed by any interleaving of submissions and at least
    * `orphaned + 1` mined blocks, its own or another miner's, ends strictly higher than it began.
    */
  lemma {:induction false} CompletedReorgIsHigher(c: Chain, orphaned: nat, steps: seq<NodeStep>)
    requires orphaned < |c.path| && (forall s :: s in steps ==> !s.Orphan?) && MineCount(steps) >= orphaned + 1
    ensures |NodeRun(NodeNext(c, Orphan(|c.path| - orphaned)), steps).path| > |c.path|
  {
    HeightCounts(NodeNext(c, Orphan(|c.path| - orphaned)), steps);
  }

  lemma {:induction false} HeightCounts(c: Chain, steps: seq<NodeStep>)
    requires forall s :: s in steps ==> !s.Orphan?
    ensures |NodeRun(c, steps).path| == |c.path| + MineCount(steps)
    decreases |steps|
  {
    if steps != [] {
      HeightCounts(NodeNext(c, steps[0]), steps[1..]);
    }
  }
}
