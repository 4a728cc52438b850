/** Theorems about the simulated node in any consistent state, a half-finished reorg included. */
module MockSupply {
  import opened Events
  import opened Sums
  import opened ChainModel
  import opened MockNode

  // ---- the supply is what was minted ----

  function MintOf(): Included -> int
  {
    (x: Included) => if x.logIndex.Some? && x.info.isMint then x.info.amount else 0
  }

  function BlockMints(): Block -> int
  {
    (b: Block) => Sum(b.txs, MintOf())
  }

  function Minted(path: seq<Block>): int { Sum(path, BlockMints()) }

  function CachedBalance(balances: map<Addr, int>): Addr -> int
  {
    (a: Addr) => Get(balances, a)
  }

  function Replayed(path: seq<Block>): Addr -> int
  {
    (a: Addr) => Replay(path, a)
  }

  function OfTxs(txs: seq<Included>): Addr -> int
  {
    (a: Addr) => Sum(txs, Effect(a))
  }

  function At(r: Addr, v: int): Addr -> int
  {
    (a: Addr) => if a == r then v else 0
  }

  function DeltaOf(x: Included): Addr -> int
  {
    (a: Addr) => if x.logIndex.Some? then Delta(x.info, a) else 0
  }

  lemma {:induction false} SumAt(keys: seq<Addr>, r: Addr, v: int)
    requires Distinct(keys) && r in keys
    ensures Sum(keys, At(r, v)) == v
  {
    var last := |keys| - 1;
    if keys[last] == r {
      SumOfZeros(keys[..last], At(r, v));
    } else {
      assert r in keys[..last];
      SumAt(keys[..last], r, v);
    }
  }

  /** A transfer moves tokens, a mint creates them, a reverted transaction does neither. */
  lemma TxConserves(keys: seq<Addr>, x: Included)
    requires Distinct(keys)
    requires x.logIndex.Some? ==> x.info.recipient in keys && (!x.info.isMint ==> x.info.sender in keys)
    ensures Sum(keys, DeltaOf(x)) == MintOf()(x)
  {
    if x.logIndex.None? {
      SumOfZeros(keys, DeltaOf(x));
    } else {
      SumAt(keys, x.info.recipient, x.info.amount);
      if x.info.isMint {
        SumPointwise(keys, DeltaOf(x), keys, At(x.info.recipient, x.info.amount));
      } else {
        SumAt(keys, x.info.sender, -x.info.amount);
        SumOfTwo(keys, At(x.info.recipient, x.info.amount), At(x.info.sender, -x.info.amount), DeltaOf(x));
      }
    }
  }

  lemma {:induction false} TxsConserve(keys: seq<Addr>, txs: seq<Included>)
    requires Distinct(keys)
    requires forall x :: x in txs && x.logIndex.Some? ==>
               x.info.recipient in keys && (!x.info.isMint ==> x.info.sender in keys)
    ensures Sum(keys, OfTxs(txs)) == Sum(txs, MintOf())
  {
    if txs == [] {
      SumOfZeros(keys, OfTxs(txs));
    } else {
      var last := |txs| - 1;
      assert txs[last] in txs;
      TxsConserve(keys, txs[..last]);
      TxConserves(keys, txs[last]);
      SumOfTwo(keys, OfTxs(txs[..last]), DeltaOf(txs[last]), OfTxs(txs));
    }
  }

  lemma {:induction false} PathConserves(keys: seq<Addr>, path: seq<Block>)
    requires Distinct(keys)
    requires forall b, x :: b in path && x in b.txs && x.logIndex.Some? ==>
               x.info.recipient in keys && (!x.info.isMint ==> x.info.sender in keys)
    ensures Sum(keys, Replayed(path)) == Minted(path)
  {
    if path == [] {
      SumOfZeros(keys, Replayed(path));
    } else {
      var last := |path| - 1;
      assert path[last] in path;
      PathConserves(keys, path[..last]);
      TxsConserve(keys, path[last].txs);
      SumOfTwo(keys, Replayed(path[..last]), OfTxs(path[last].txs), Replayed(path));
    }
  }

  /** The rows of the balance table add up to the mints of the canonical chain. */
  lemma SupplyIsMinted(n: Node, keys: seq<Addr>)
    requires NodeOk(n) && Distinct(keys) && forall a :: a in keys <==> a in n.balances
    ensures Sum(keys, CachedBalance(n.balances)) == Minted(n.path)
  {
    SumPointwise(keys, CachedBalance(n.balances), keys, Replayed(n.path));
    PathConserves(keys, n.path);
  }

  /** Nobody is ever overdrawn, now or at any canonical height. */
  lemma NobodyOverdrawn(n: Node, a: Addr, height: nat)
    requires NodeOk(n) && height <= |n.path|
    ensures Get(n.balances, a) >= 0 && Replay(n.path[..height], a) >= 0
  {
    assert n.path[..|n.path|] == n.path;
    assert Replay(n.path[..|n.path|], a) >= 0;
  }

  // ---- receipts and logs ----

  /** `get_receipt`: the row says MINED or FAILED and its block is canonical. */
  predicate HasReceipt(n: Node, t: TxRef)
  {
    && t in n.txs && OnChain(n.txs[t])
    && n.txs[t].block.Some? && n.txs[t].block.value in n.blocks && n.blocks[n.txs[t].block.value].canonical
  }

  /** The row names the block at path position `i`, and is MINED exactly if the block logged it. */
  predicate RecordedIn(txs: map<TxRef, Tx>, t: TxRef, b: Block, i: nat)
  {
    && t in txs && txs[t].number == Some(i + 1) && txs[t].block == Some(b.hash)
    && (txs[t].status.Mined? <==> HasMined(b, t))
  }

  /** A transaction has a receipt iff it is MINED or FAILED, and then in the one canonical block that includes it. */
  lemma ReceiptIffOnChain(n: Node, t: TxRef)
    requires NodeOk(n)
    ensures HasReceipt(n, t) <==> t in n.txs && OnChain(n.txs[t])
    ensures HasReceipt(n, t) <==> ReceiptIndex(n.path, t).Some?
    ensures match ReceiptIndex(n.path, t)
            case None => true
            case Some(i) => RecordedIn(n.txs, t, n.path[i], i)
  {
    var r := ReceiptIndex(n.path, t);
    if r.Some? {
      ReceiptRow(n, t, r.value);
    } else {
      OffChain(n.txs, n.path, t);
    }
  }

  lemma OffChain(txs: map<TxRef, Tx>, path: seq<Block>, t: TxRef)
    requires StatusMatches(txs, path) && ReceiptIndex(path, t).None?
    ensures t in txs ==> !OnChain(txs[t])
  {
  }

  lemma ReceiptRow(n: Node, t: TxRef, i: nat)
    requires NodeOk(n) && i < |n.path| && HasTx(n.path[i], t)
    ensures HasReceipt(n, t)
    ensures RecordedIn(n.txs, t, n.path[i], i)
  {
    var b := n.path[i];
    var x :| x in b.txs && x.tx == t;
    assert RowOf(n.txs, b, x);
    assert n.archive[b.hash] == b && b.number == i + 1;
    assert FlagTells(n.blocks, n.path, b.hash);
    forall y | y in b.txs && y.tx == t && y.logIndex.Some? ensures n.txs[t].status.Mined? {
      assert RowOf(n.txs, b, y);
    }
  }

  /** `get_transfer_logs`: MINED rows of a height range whose block is canonical. */
  predicate Logged(n: Node, t: TxRef, from: nat, to: nat)
  {
    && HasReceipt(n, t) && n.txs[t].status.Mined?
    && n.txs[t].number.Some? && from <= n.txs[t].number.value <= to
  }

  predicate MinedAt(path: seq<Block>, t: TxRef, from: nat, to: nat, i: nat)
  {
    i < |path| && from <= i + 1 <= to && HasMined(path[i], t)
  }

  /** The query returns exactly the logs of the canonical blocks in the range. */
  lemma LogsAreCanonical(n: Node, t: TxRef, from: nat, to: nat)
    requires NodeOk(n)
    ensures Logged(n, t, from, to) <==> exists i :: MinedAt(n.path, t, from, to, i)
  {
    forall i | MinedAt(n.path, t, from, to, i) ensures Logged(n, t, from, to) {
      CanonicalIsLogged(n, t, from, to, i);
    }
    if Logged(n, t, from, to) {
      var i := LoggedIsCanonical(n, t, from, to);
    }
  }

  lemma CanonicalIsLogged(n: Node, t: TxRef, from: nat, to: nat, i: nat)
    requires NodeOk(n) && MinedAt(n.path, t, from, to, i)
    ensures Logged(n, t, from, to)
  {
    MinedHasTx(n.path[i], t);
    ReceiptRow(n, t, i);
  }

  lemma LoggedIsCanonical(n: Node, t: TxRef, from: nat, to: nat) returns (i: nat)
    requires NodeOk(n) && Logged(n, t, from, to)
    ensures MinedAt(n.path, t, from, to, i)
  {
    ReceiptIffOnChain(n, t);
    i := ReceiptIndex(n.path, t).value;
  }

  predicate HasMined(b: Block, t: TxRef) { exists x :: x in b.txs && x.tx == t && x.logIndex.Some? }

  lemma MinedHasTx(b: Block, t: TxRef)
    requires HasMined(b, t)
    ensures HasTx(b, t)
  {
  }
}
