/** Orphaning blocks of the simulated node: undone in any order, the tables are those of the shorter path. */
module MockUndo {
  import opened Events
  import opened Sums
  import opened ChainModel
  import opened MockNode

  // ---- undoing the top block, in any order ----

  function EffectIn(rest: set<TxRef>, a: Addr): Included -> int
  {
    (x: Included) => if x.tx in rest then Effect(a)(x) else 0
  }

  /** Part of the top block is undone: `rest` is still executed. */
  ghost predicate MidUndo(txs: map<TxRef, Tx>, u: Undo, front: seq<Block>, b: Block, rest: set<TxRef>, drop: set<TxRef>)
  {
    && u.txs.Keys == txs.Keys
    && (forall x :: x in b.txs && x.tx in rest ==> RowOf(u.txs, b, x))
    && (forall x :: x in b.txs && x.tx !in rest ==> x.tx in txs && u.txs[x.tx] == Returned(txs[x.tx], x.tx in drop))
    && (forall t :: t in txs && (forall x :: x in b.txs ==> x.tx != t) ==> u.txs[t] == txs[t])
    && (forall a :: Get(u.balances, a) == Replay(front, a) + Sum(b.txs, EffectIn(rest, a)))
  }

  lemma {:induction false} EffectLess(included: seq<Included>, i: nat, rest: set<TxRef>, a: Addr)
    requires i < |included| && DistinctTxs(included) && included[i].tx in rest
    ensures Sum(included, EffectIn(rest - {included[i].tx}, a)) ==
            Sum(included, EffectIn(rest, a)) - Effect(a)(included[i])
  {
    var last := |included| - 1;
    if i < last {
      EffectLess(included[..last], i, rest, a);
    } else {
      SumPointwise(included[..last], EffectIn(rest - {included[i].tx}, a), included[..last], EffectIn(rest, a));
    }
  }

  lemma UndoBalances(u: Undo, front: seq<Block>, b: Block, rest: set<TxRef>, i: nat, drop: set<TxRef>)
    requires i < |b.txs| && DistinctTxs(b.txs) && b.txs[i].tx in rest && RowOf(u.txs, b, b.txs[i])
    requires forall a :: Get(u.balances, a) == Replay(front, a) + Sum(b.txs, EffectIn(rest, a))
    ensures var u1 := UndoOne(u, b.txs[i].tx, drop);
            forall a :: Get(u1.balances, a) == Replay(front, a) + Sum(b.txs, EffectIn(rest - {b.txs[i].tx}, a))
  {
    var x := b.txs[i];
    var u1 := UndoOne(u, x.tx, drop);
    forall a ensures Get(u1.balances, a) == Replay(front, a) + Sum(b.txs, EffectIn(rest - {x.tx}, a)) {
      EffectLess(b.txs, i, rest, a);
      ApplyIsDelta(u.balances, x.info, a);
      assert Get(u.balances, a) == Replay(front, a) + Sum(b.txs, EffectIn(rest, a));
    }
  }

  /** Undoing any one of the remaining transactions. */
  lemma UndoKeeps(txs: map<TxRef, Tx>, u: Undo, front: seq<Block>, b: Block, rest: set<TxRef>, i: nat, drop: set<TxRef>)
    requires MidUndo(txs, u, front, b, rest, drop) && i < |b.txs| && DistinctTxs(b.txs) && b.txs[i].tx in rest
    requires RowOf(txs, b, b.txs[i]) && u.txs[b.txs[i].tx] == txs[b.txs[i].tx]
    ensures MidUndo(txs, UndoOne(u, b.txs[i].tx, drop), front, b, rest - {b.txs[i].tx}, drop)
  {
    UndoBalances(u, front, b, rest, i, drop);
    var u1 := UndoOne(u, b.txs[i].tx, drop);
    forall x | x in b.txs && x.tx in rest - {b.txs[i].tx} ensures RowOf(u1.txs, b, x) {
      assert RowOf(u.txs, b, x);
    }
  }

  /** The transactions of a block, as the table finds them: the rows that carry its hash. */
  function InBlock(txs: map<TxRef, Tx>, hash: Hash): set<TxRef> { set t | t in txs && txs[t].block == Some(hash) }

  lemma InBlockAre(n: Node, t: TxRef)
    requires NodeOk(n) && n.path != []
    ensures var b := n.path[|n.path| - 1]; t in InBlock(n.txs, b.hash) <==> HasTx(b, t)
  {
    var b := n.path[|n.path| - 1];
    if t in InBlock(n.txs, b.hash) {
      assert OnChain(n.txs[t]);
      var c :| c in n.path && HasTx(c, t);
      var x :| x in c.txs && x.tx == t;
      assert RowOf(n.txs, c, x);
      SameHashSameBlock(n, c, b);
    }
    if HasTx(b, t) {
      var x :| x in b.txs && x.tx == t;
      assert RowOf(n.txs, b, x);
    }
  }

  lemma SameHashSameBlock(n: Node, c: Block, b: Block)
    requires ChainOk(ChainOf(n)) && c in n.path && b in n.path && c.hash == b.hash
    ensures c == b
  {
    var i :| 0 <= i < |n.path| && n.path[i] == c;
    var j :| 0 <= j < |n.path| && n.path[j] == b;
    assert n.archive[n.path[i].hash] == n.path[i] && n.archive[n.path[j].hash] == n.path[j];
  }

  lemma StartUndo(n: Node, drop: set<TxRef>)
    requires NodeOk(n) && n.path != []
    ensures var last := |n.path| - 1;
            var rest := InBlock(n.txs, n.path[last].hash);
            MidUndo(n.txs, Undo(n.txs, n.balances), n.path[..last], n.path[last], rest, drop)
  {
    var b := n.path[|n.path| - 1];
    var rest := InBlock(n.txs, b.hash);
    forall x | x in b.txs ensures RowOf(n.txs, b, x) && x.tx in rest {
      assert RowOf(n.txs, b, x);
    }
    StartUndoCache(n.balances, n.path, rest);
  }

  lemma StartUndoCache(balances: map<Addr, int>, path: seq<Block>, rest: set<TxRef>)
    requires path != [] && CacheIsReplay(balances, path) && forall x :: x in path[|path| - 1].txs ==> x.tx in rest
    ensures var last := |path| - 1;
            forall a :: Get(balances, a) == Replay(path[..last], a) + Sum(path[last].txs, EffectIn(rest, a))
  {
    var last := |path| - 1;
    var b := path[last];
    assert path == path[..last] + [b];
    forall a ensures Get(balances, a) == Replay(path[..last], a) + Sum(b.txs, EffectIn(rest, a)) {
      ReplayAppend(path[..last], b, a);
      SumPointwise(b.txs, Effect(a), b.txs, EffectIn(rest, a));
    }
  }

  function DropTop(n: Node, u: Undo): Node
    requires n.path != [] && n.path[|n.path| - 1].hash in n.blocks
  {
    var last := |n.path| - 1;
    var h := n.path[last].hash;
    Node(n.path[..last], n.archive, u.txs, n.blocks[h := n.blocks[h].(canonical := false)], u.balances)
  }

  lemma UndoneRows(n: Node, u: Undo, drop: set<TxRef>)
    requires NodeOk(n) && n.path != [] && MidUndo(n.txs, u, n.path[..|n.path| - 1], n.path[|n.path| - 1], {}, drop)
    ensures RowsRecord(u.txs, n.path[..|n.path| - 1])
  {
    var last := |n.path| - 1;
    forall c, x | c in n.path[..last] && x in c.txs ensures RowOf(u.txs, c, x) {
      var i :| 0 <= i < last && n.path[i] == c;
      assert RowOf(n.txs, c, x);
      assert HasTx(n.path[i], x.tx) && !HasTx(n.path[last], x.tx);
      assert forall y :: y in n.path[last].txs ==> y.tx != x.tx;
    }
  }

  lemma UndoneStatus(txs: map<TxRef, Tx>, path: seq<Block>, u: Undo, drop: set<TxRef>)
    requires path != [] && StatusMatches(txs, path) && MidUndo(txs, u, path[..|path| - 1], path[|path| - 1], {}, drop)
    ensures StatusMatches(u.txs, path[..|path| - 1])
  {
    forall t | t in u.txs
      ensures u.txs[t].info == txs[t].info
      ensures OnChain(u.txs[t]) ==> exists c :: c in path[..|path| - 1] && HasTx(c, t)
      ensures !OnChain(u.txs[t]) ==> u.txs[t].number.None? && u.txs[t].block.None? && u.txs[t].logIndex.None?
    {
      UndoneRow(txs, path, u, t, drop);
    }
  }

  lemma UndoneRow(txs: map<TxRef, Tx>, path: seq<Block>, u: Undo, t: TxRef, drop: set<TxRef>)
    requires path != [] && StatusMatches(txs, path) && MidUndo(txs, u, path[..|path| - 1], path[|path| - 1], {}, drop)
    requires t in u.txs
    ensures u.txs[t].info == txs[t].info
    ensures OnChain(u.txs[t]) ==> exists c :: c in path[..|path| - 1] && HasTx(c, t)
    ensures !OnChain(u.txs[t]) ==> u.txs[t].number.None? && u.txs[t].block.None? && u.txs[t].logIndex.None?
  {
    var b := path[|path| - 1];
    if HasTx(b, t) {
      var x :| x in b.txs && x.tx == t;
    } else {
      assert u.txs[t] == txs[t];
      if OnChain(txs[t]) {
        var c :| c in path && HasTx(c, t);
        assert c in path[..|path| - 1];
      }
    }
  }

  lemma UndoneSubmitted(txs: map<TxRef, Tx>, path: seq<Block>, u: Undo, drop: set<TxRef>)
    requires path != [] && StatusMatches(txs, path) && MidUndo(txs, u, path[..|path| - 1], path[|path| - 1], {}, drop)
    ensures Submitted(u.txs) == Submitted(txs)
  {
    forall t | t in u.txs ensures u.txs[t].info == txs[t].info {
      UndoneRow(txs, path, u, t, drop);
    }
  }

  lemma UndoneCache(balances: map<Addr, int>, path: seq<Block>, after: map<Addr, int>)
    requires path != [] && CacheIsReplay(balances, path) && NeverNegative(path) && balances.Keys <= after.Keys
    requires forall a :: Get(after, a) == Replay(path[..|path| - 1], a) + Sum(path[|path| - 1].txs, EffectIn({}, a))
    ensures CacheIsReplay(after, path[..|path| - 1]) && NeverNegative(path[..|path| - 1])
  {
    var front := path[..|path| - 1];
    forall a ensures Get(after, a) == Replay(front, a) {
      SumOfZeros(path[|path| - 1].txs, EffectIn({}, a));
    }
    forall k, a | 0 <= k <= |front| ensures Replay(front[..k], a) >= 0 {
      assert front[..k] == path[..k];
      assert Replay(path[..k], a) >= 0;
    }
  }

  lemma UndoneCanonical(blocks: map<Hash, BlockRow>, path: seq<Block>, archive: map<Hash, Block>)
    requires path != [] && CanonicalAre(blocks, path, archive) && path[|path| - 1].number == |path|
    requires path[|path| - 1].hash in archive && archive[path[|path| - 1].hash] == path[|path| - 1]
    ensures path[|path| - 1].hash in blocks
    ensures var h := path[|path| - 1].hash;
            CanonicalAre(blocks[h := blocks[h].(canonical := false)], path[..|path| - 1], archive)
  {
    var top := path[|path| - 1].hash;
    var after := blocks[top := blocks[top].(canonical := false)];
    forall h | h in after ensures FlagTells(after, path[..|path| - 1], h) {
      assert FlagTells(blocks, path, h);
    }
  }

  /** With its transactions undone in whatever order, dropping the top block keeps every invariant of the node. */
  lemma DropKeepsNode(n: Node, u: Undo, drop: set<TxRef>)
    requires NodeOk(n) && |n.path| > 1 && n.balances.Keys <= u.balances.Keys
    requires MidUndo(n.txs, u, n.path[..|n.path| - 1], n.path[|n.path| - 1], {}, drop)
    ensures n.path[|n.path| - 1].hash in n.blocks
    ensures NodeOk(DropTop(n, u))
    ensures ChainOf(DropTop(n, u)) == NodeNext(ChainOf(n), Orphan(|n.path| - 1))
  {
    UndoneRows(n, u, drop);
    UndoneStatus(n.txs, n.path, u, drop);
    UndoneSubmitted(n.txs, n.path, u, drop);
    UndoneCache(n.balances, n.path, u.balances);
    UndoneCanonical(n.blocks, n.path, n.archive);
    StepOk(ChainOf(n), Orphan(|n.path| - 1));
  }

  /** The loop of `reorg` over one block: any transaction of it may come next. */
  ghost predicate UndoLoop(n: Node, u: Undo, rest: set<TxRef>, drop: set<TxRef>)
    requires n.path != []
  {
    var b := n.path[|n.path| - 1];
    && MidUndo(n.txs, u, n.path[..|n.path| - 1], b, rest, drop)
    && rest <= InBlock(n.txs, b.hash)
    && n.balances.Keys <= u.balances.Keys
    && (forall t :: t in rest ==> t in u.txs && u.txs[t] == n.txs[t])
  }

  lemma UndoAny(n: Node, u: Undo, rest: set<TxRef>, drop: set<TxRef>, t: TxRef)
    requires NodeOk(n) && n.path != [] && UndoLoop(n, u, rest, drop) && t in rest
    ensures UndoLoop(n, UndoOne(u, t, drop), rest - {t}, drop)
  {
    var b := n.path[|n.path| - 1];
    InBlockAre(n, t);
    var i :| 0 <= i < |b.txs| && b.txs[i].tx == t;
    assert RowOf(n.txs, b, b.txs[i]);
    UndoKeeps(n.txs, u, n.path[..|n.path| - 1], b, rest, i, drop);
  }

  /** After the loop: the block's transactions are back in the mempool or dropped, all others as before. */
  ghost predicate BackInMempool(before: map<TxRef, Tx>, after: map<TxRef, Tx>, hash: Hash, drop: set<TxRef>)
  {
    && after.Keys == before.Keys
    && forall t :: t in before ==>
          after[t] == if t in InBlock(before, hash) then Returned(before[t], t in drop) else before[t]
  }

  lemma UndoneAll(n: Node, u: Undo, drop: set<TxRef>)
    requires NodeOk(n) && n.path != [] && UndoLoop(n, u, {}, drop)
    ensures BackInMempool(n.txs, u.txs, n.path[|n.path| - 1].hash, drop)
  {
    var b := n.path[|n.path| - 1];
    forall t | t in n.txs
      ensures u.txs[t] == if t in InBlock(n.txs, b.hash) then Returned(n.txs[t], t in drop) else n.txs[t]
    {
      InBlockAre(n, t);
      if HasTx(b, t) {
        var x :| x in b.txs && x.tx == t;
      } else {
        assert forall x :: x in b.txs ==> x.tx != t;
      }
    }
  }

  /** The transactions mined above a height go back to the mempool or are dropped, all others stay. */
  ghost predicate Reverted(before: map<TxRef, Tx>, after: map<TxRef, Tx>, keep: nat, drop: set<TxRef>)
  {
    && after.Keys == before.Keys
    && forall t :: t in before ==>
          after[t] == if Above(before[t], keep) then Returned(before[t], t in drop) else before[t]
  }

  predicate Above(tx: Tx, keep: nat) { tx.number.Some? && tx.number.value > keep }

  /** Where a mined or reverted transaction is. */
  lemma Located(n: Node, t: TxRef) returns (i: nat)
    requires RowsRecord(n.txs, n.path) && StatusMatches(n.txs, n.path) && Linked(n.path) && t in n.txs
    requires OnChain(n.txs[t])
    ensures i < |n.path| && HasTx(n.path[i], t)
    ensures n.txs[t].number.Some? && n.txs[t].number.value == i + 1
  {
    var c :| c in n.path && HasTx(c, t);
    i :| 0 <= i < |n.path| && n.path[i] == c;
    var x :| x in c.txs && x.tx == t;
    assert RowOf(n.txs, c, x) && n.path[i].number == i + 1;
  }

  lemma TopIsAbove(n: Node, t: TxRef)
    requires RowsRecord(n.txs, n.path) && StatusMatches(n.txs, n.path) && Linked(n.path) && TxOnce(n.path)
    requires n.path != [] && t in n.txs
    ensures HasTx(n.path[|n.path| - 1], t) <==> Above(n.txs[t], |n.path| - 1)
  {
    var last := |n.path| - 1;
    if OnChain(n.txs[t]) {
      var i := Located(n, t);
      assert i < last ==> !HasTx(n.path[last], t);
    } else {
      forall x | x in n.path[last].txs ensures x.tx != t {
        assert RowOf(n.txs, n.path[last], x);
      }
    }
  }

  lemma RevertedTop(n: Node, after: map<TxRef, Tx>, drop: set<TxRef>)
    requires NodeOk(n) && n.path != [] && BackInMempool(n.txs, after, n.path[|n.path| - 1].hash, drop)
    ensures Reverted(n.txs, after, |n.path| - 1, drop)
  {
    forall t | t in n.txs ensures t in InBlock(n.txs, n.path[|n.path| - 1].hash) <==> Above(n.txs[t], |n.path| - 1) {
      InBlockAre(n, t);
      TopIsAbove(n, t);
    }
  }

  lemma RevertedFurther(
      before: map<TxRef, Tx>, mid: map<TxRef, Tx>, after: map<TxRef, Tx>, keep: nat, lower: nat, drop: set<TxRef>)
    requires Reverted(before, mid, keep, drop) && Reverted(mid, after, lower, drop) && lower <= keep
    ensures Reverted(before, after, lower, drop)
  {
  }

  /** `now` is `n` without its blocks above some height. */
  ghost predicate CutBack(n: Node, now: Node, drop: set<TxRef>)
  {
    && NodeOk(now) && 1 <= |now.path| <= |n.path|
    && ChainOf(now) == NodeNext(ChainOf(n), Orphan(|now.path|))
    && Reverted(n.txs, now.txs, |now.path|, drop)
  }

  lemma CutNothing(n: Node, drop: set<TxRef>)
    requires NodeOk(n) && n.path != []
    ensures CutBack(n, n, drop)
  {
    forall t | t in n.txs ensures !Above(n.txs[t], |n.path|) {
      if OnChain(n.txs[t]) {
        var i := Located(n, t);
      }
    }
    assert n.path[..|n.path|] == n.path;
  }

  lemma CutTop(n: Node, u: Undo, after: Node, drop: set<TxRef>)
    requires NodeOk(n) && |n.path| > 1 && UndoLoop(n, u, {}, drop)
    requires n.path[|n.path| - 1].hash in n.blocks && after == DropTop(n, u)
    ensures CutBack(n, after, drop)
  {
    DropKeepsNode(n, u, drop);
    UndoneAll(n, u, drop);
    RevertedTop(n, u.txs, drop);
  }

  lemma CutFurther(n: Node, mid: Node, now: Node, drop: set<TxRef>)
    requires CutBack(n, mid, drop) && CutBack(mid, now, drop)
    ensures CutBack(n, now, drop)
  {
    RevertedFurther(n.txs, mid.txs, now.txs, |mid.path|, |now.path|, drop);
    assert n.path[..|mid.path|][..|now.path|] == n.path[..|now.path|];
  }
}
