/** What the mempool pages and the competing fork of a reorg contain. */
module MockFork {
  import opened Events
  import opened ChainModel
  import opened MockNode
  import opened MockUndo

  /** The mempool order: by time of creation, then by transaction hash. */
  predicate NotAfter(a: Tx, b: Tx) { a.created < b.created || (a.created == b.created && a.hash <= b.hash) }

  function PendingIn(txs: map<TxRef, Tx>): set<TxRef> { set t | t in txs && txs[t].status.Pending? }

  /** A mempool page: pending transactions in mempool order, as many as fit, none later than one left out. */
  ghost predicate IsPage(txs: map<TxRef, Tx>, page: seq<TxRef>)
  {
    && FromPending(txs, page)
    && |page| <= MAX_TXS_PER_BLOCK
    && (forall i, j :: 0 <= i < j < |page| ==> NotAfter(txs[page[i]], txs[page[j]]))
    && (forall t, u :: t in page && u in txs && txs[u].status.Pending? && u !in page ==> NotAfter(txs[t], txs[u]))
    && (|page| < MAX_TXS_PER_BLOCK ==> forall u :: u in txs && txs[u].status.Pending? ==> u in page)
  }

  /**
    * A block of `page` on top of `n`: in page order, each transaction's row placed in it, and reverted exactly if
    * forced or unfunded at its turn; no other transaction changes.
    */
  ghost predicate Mines(n: Node, failNext: nat, hash: Hash, page: seq<TxRef>, included: seq<Included>, after: Node)
  {
    && FromPending(n.txs, page) && |included| == |page|
    && NodeEnabled(ChainOf(n), Mine(hash, included))
    && ChainOf(after) == NodeNext(ChainOf(n), Mine(hash, included))
    && Follows(n.txs, after.txs, page, included, |n.path| + 1, hash)
    && (forall k :: 0 <= k < |page| ==> OutcomeOk(n.txs, failNext, n.path, page, included, k))
  }

  /**
    * Orphaning the blocks above `keep`: their transactions are pending again, or dropped, with their terms and
    * their place in the mempool order; no other transaction changes.
    */
  ghost predicate BackInOrder(before: map<TxRef, Tx>, after: map<TxRef, Tx>, keep: nat, drop: set<TxRef>)
  {
    && after.Keys == before.Keys
    && forall t :: t in before ==>
         if before[t].number.Some? && before[t].number.value > keep then
           && after[t].status == (if t in drop then Dropped else Pending)
           && after[t].number == None && after[t].block == None && after[t].logIndex == None
           && after[t].info == before[t].info && after[t].failOnMine == before[t].failOnMine
           && after[t].created == before[t].created && after[t].hash == before[t].hash
         else after[t] == before[t]
  }

  lemma CutIsInOrder(n: Node, now: Node, drop: set<TxRef>)
    requires CutBack(n, now, drop)
    ensures BackInOrder(n.txs, now.txs, |now.path|, drop)
  {
  }

  /** One more block, with a page of the mempool of its moment, or with nothing while mining is halted. */
  ghost predicate ForkStep(n: Node, after: Node, halted: bool)
  {
    exists failNext, hash, page, included ::
      && Mines(n, failNext, hash, page, included, after)
      && if halted then page == [] else IsPage(n.txs, page)
  }

  /** The node from the end of the orphaning on, block by block. */
  ghost predicate ForkTrace(trace: seq<Node>, halted: bool)
  {
    && trace != []
    && (forall k :: 0 <= k < |trace| ==> NodeOk(trace[k]))
    && (forall k :: 0 < k < |trace| ==> ForkStep(trace[k - 1], trace[k], halted))
  }

  lemma TraceGrows(trace: seq<Node>, halted: bool, after: Node)
    requires ForkTrace(trace, halted) && NodeOk(after) && ForkStep(trace[|trace| - 1], after, halted)
    ensures ForkTrace(trace + [after], halted)
  {
    var more := trace + [after];
    forall k | 0 < k < |more| ensures ForkStep(more[k - 1], more[k], halted) {
      assert more[k - 1] == trace[k - 1];
    }
  }

  // ---- what is pending gets mined ----

  lemma PageShrinksPending(before: map<TxRef, Tx>, after: map<TxRef, Tx>, page: seq<TxRef>)
    requires FromPending(before, page) && after.Keys == before.Keys
    requires forall t :: t in page ==> OnChain(after[t])
    requires forall t :: t in before && t !in page ==> after[t] == before[t]
    ensures PendingIn(after) == PendingIn(before) - set t | t in page
    ensures |PendingIn(after)| == |PendingIn(before)| - |page|
  {
    var gone := set t | t in page;
    assert PendingIn(after) == PendingIn(before) - gone;
    assert gone <= PendingIn(before);
    DistinctSize(page);
  }

  lemma {:induction false} DistinctSize(page: seq<TxRef>)
    requires Distinct(page)
    ensures |set t | t in page| == |page|
  {
    if page != [] {
      var front, last := page[..|page| - 1], page[|page| - 1];
      assert page == front + [last];
      DistinctSize(front);
      assert (set t | t in page) == (set t | t in front) + {last};
    } else {
      assert (set t: TxRef | t in page) == {};
    }
  }

  /** A fork step settles its page and leaves every other transaction as it was. */
  lemma StepSettles(n: Node, after: Node, halted: bool) returns (page: seq<TxRef>)
    requires ForkStep(n, after, halted)
    ensures FromPending(n.txs, page) && after.txs.Keys == n.txs.Keys
    ensures forall t :: t in page ==> OnChain(after.txs[t])
    ensures forall t :: t in n.txs && t !in page ==> after.txs[t] == n.txs[t]
    ensures if halted then page == [] else IsPage(n.txs, page)
  {
    var failNext, hash, included;
    failNext, hash, page, included :| && Mines(n, failNext, hash, page, included, after)
                                      && if halted then page == [] else IsPage(n.txs, page);
    PlacedIsOn(n.txs, after.txs, page, included, |n.path| + 1, hash);
  }

  lemma PlacedIsOn(
      before: map<TxRef, Tx>, after: map<TxRef, Tx>, page: seq<TxRef>, included: seq<Included>, number: nat,
      hash: Hash)
    requires FromPending(before, page) && Follows(before, after, page, included, number, hash)
    ensures forall t :: t in page ==> OnChain(after[t])
  {
    forall t | t in page ensures OnChain(after[t]) {
      var k :| 0 <= k < |page| && page[k] == t;
      assert after[page[k]] == Placed(before[page[k]], included[k], number, hash);
    }
  }

  lemma StepShrinksPending(n: Node, after: Node)
    requires ForkStep(n, after, false)
    ensures |PendingIn(after.txs)| <= Left(|PendingIn(n.txs)|, 1)
  {
    var page := StepSettles(n, after, false);
    PageShrinksPending(n.txs, after.txs, page);
    if |page| < MAX_TXS_PER_BLOCK {
      assert PendingIn(n.txs) - (set t | t in page) == {};
    }
  }

  /** What `blocks` full blocks leave of `pending` transactions. */
  function Left(pending: nat, blocks: nat): nat
  {
    if pending <= MAX_TXS_PER_BLOCK * blocks then 0 else pending - MAX_TXS_PER_BLOCK * blocks
  }

  lemma {:induction false} ForkShrinksPending(trace: seq<Node>, k: nat)
    requires ForkTrace(trace, false) && k < |trace|
    ensures |PendingIn(trace[k].txs)| <= Left(|PendingIn(trace[0].txs)|, k)
  {
    if k > 0 {
      ForkShrinksPending(trace, k - 1);
      StepShrinksPending(trace[k - 1], trace[k]);
    }
  }

  lemma StepKeepsDropped(n: Node, after: Node, halted: bool, t: TxRef)
    requires ForkStep(n, after, halted) && t in n.txs
    ensures t in after.txs && (after.txs[t].status.Dropped? <==> n.txs[t].status.Dropped?)
  {
    var page := StepSettles(n, after, halted);
  }

  /** What was dropped at the start of the fork stays so, and nothing else is dropped. */
  lemma {:induction false} ForkKeepsDropped(trace: seq<Node>, halted: bool, k: nat, t: TxRef)
    requires ForkTrace(trace, halted) && k < |trace| && t in trace[0].txs
    ensures t in trace[k].txs && (trace[k].txs[t].status.Dropped? <==> trace[0].txs[t].status.Dropped?)
  {
    if k > 0 {
      ForkKeepsDropped(trace, halted, k - 1, t);
      StepKeepsDropped(trace[k - 1], trace[k], halted, t);
    }
  }

  // ---- the orphaned transactions ----

  /** What became of a transaction of an orphaned block. */
  ghost predicate Resettled(now: Node, t: TxRef, dropped: bool)
  {
    && t in now.txs
    && if dropped then now.txs[t].status == Dropped && forall b :: b in now.path ==> !HasTx(b, t)
       else (now.txs[t].status == Mined || now.txs[t].status == Failed) && exists b :: b in now.path && HasTx(b, t)
  }

  lemma DroppedIsOff(n: Node, t: TxRef)
    requires NodeOk(n) && t in n.txs && n.txs[t].status.Dropped?
    ensures forall b :: b in n.path ==> !HasTx(b, t)
  {
    forall b | b in n.path ensures !HasTx(b, t) {
      forall x | x in b.txs ensures x.tx != t {
        assert RowOf(n.txs, b, x);
      }
    }
  }

  lemma OrphanedIsAbove(n: Node, i: nat, t: TxRef, keep: nat)
    requires NodeOk(n) && keep <= i < |n.path| && HasTx(n.path[i], t)
    ensures t in n.txs && Above(n.txs[t], keep)
  {
    var x :| x in n.path[i].txs && x.tx == t;
    assert RowOf(n.txs, n.path[i], x) && n.path[i].number == i + 1;
  }

  /**
    * A transaction of an orphaned block ends DROPPED, in no canonical block, if it was to be dropped. Otherwise
    * it is MINED or FAILED in a canonical block of the fork, if mining is not halted and the fork has room for
    * all that is pending.
    */
  lemma OrphanedIsResettled(n: Node, trace: seq<Node>, halted: bool, drop: set<TxRef>, i: nat, t: TxRef)
    requires NodeOk(n) && ForkTrace(trace, halted) && CutBack(n, trace[0], drop)
    requires |trace[0].path| <= i < |n.path| && HasTx(n.path[i], t)
    requires t in drop || (!halted && |PendingIn(trace[0].txs)| <= MAX_TXS_PER_BLOCK * (|trace| - 1))
    ensures Resettled(trace[|trace| - 1], t, t in drop)
  {
    var last := |trace| - 1;
    OrphanedIsAbove(n, i, t, |trace[0].path|);
    assert trace[0].txs[t] == Returned(n.txs[t], t in drop);
    ForkKeepsDropped(trace, halted, last, t);
    if t in drop {
      DroppedIsOff(trace[last], t);
    } else {
      ForkShrinksPending(trace, last);
      MinedIsOn(trace[last], t);
    }
  }

  lemma MinedIsOn(n: Node, t: TxRef)
    requires NodeOk(n) && t in n.txs && !n.txs[t].status.Dropped? && |PendingIn(n.txs)| == 0
    ensures (n.txs[t].status == Mined || n.txs[t].status == Failed) && exists b :: b in n.path && HasTx(b, t)
  {
    assert t !in PendingIn(n.txs);
    assert OnChain(n.txs[t]);
  }

  /** All transactions of the blocks of `n` above `keep` are resettled, as far as halted mining and room allow. */
  ghost predicate AllResettled(n: Node, keep: nat, fork: seq<Node>, halted: bool, drop: set<TxRef>)
    requires fork != []
  {
    forall i, t :: keep <= i < |n.path| && HasTx(n.path[i], t) ==>
      t in drop || (!halted && |PendingIn(fork[0].txs)| <= MAX_TXS_PER_BLOCK * (|fork| - 1)) ==>
        Resettled(fork[|fork| - 1], t, t in drop)
  }

  lemma OrphansAreResettled(n: Node, trace: seq<Node>, halted: bool, drop: set<TxRef>)
    requires NodeOk(n) && ForkTrace(trace, halted) && CutBack(n, trace[0], drop)
    ensures AllResettled(n, |trace[0].path|, trace, halted, drop)
  {
    forall i, t | |trace[0].path| <= i < |n.path| && HasTx(n.path[i], t)
                  && (t in drop || (!halted && |PendingIn(trace[0].txs)| <= MAX_TXS_PER_BLOCK * (|trace| - 1)))
      ensures Resettled(trace[|trace| - 1], t, t in drop)
    {
      OrphanedIsResettled(n, trace, halted, drop, i, t);
    }
  }
}
