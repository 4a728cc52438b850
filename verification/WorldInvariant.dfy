/** What holds across the services in every reachable state. */
module WorldInvariant {
  import opened Events
  import opened ChainModel
  import opened World
  import W = Wallet
  import WI = WalletInvariant
  import WP = WalletProperties
  import D = Deposits
  import DC = DepositConservation
  import O = Outgoing

  ghost predicate PartsOk(s: State)
  {
    WI.WalletOk(s.w) && WP.LinkOk(s.w) && DC.Inv(s.d) && O.Inv(s.o)
  }

  /** The wallet handled only what was emitted. */
  ghost predicate Sourced(processed: set<EventId>, dlog: seq<Event>, olog: seq<Event>)
  {
    forall id :: id in processed ==> Emitted(dlog, id) || Emitted(olog, id)
  }

  ghost predicate HasTransfer(ts: seq<W.Transfer>, t: TransferId, sender: Addr, recipient: Addr, amount: int)
  {
    exists u :: u in ts && u.id == t && u.fromAddr == sender && u.toAddr == recipient && u.req.amount == amount
  }

  /** Every request and every outgoing row carries the terms of a wallet transfer. */
  ghost predicate RequestsOk(ts: seq<W.Transfer>, outbox: seq<Event>)
  {
    forall e :: e in outbox ==> e.TransferRequested? && HasTransfer(ts, e.transfer, e.sender, e.recipient, e.amount)
  }

  ghost predicate RowsOk(ts: seq<W.Transfer>, rows: map<TransferId, O.Row>)
  {
    forall t :: t in rows ==> HasTransfer(ts, t, rows[t].sender, rows[t].recipient, rows[t].amount)
  }

  ghost predicate AboutTransfer(e: Event) { e.TxBroadcasted? || e.TxConfirmed? || e.TxFailed? }

  ghost predicate OutgoingLogOk(log: seq<Event>, rows: map<TransferId, O.Row>)
  {
    forall e :: e in log ==> AboutTransfer(e) && e.transfer in rows
  }

  /** Only rows that sign for one of the service's own addresses are ever alive. */
  ghost predicate SendersOk(rows: map<TransferId, O.Row>, addresses: set<Addr>)
  {
    forall t :: t in rows ==> rows[t].sender in addresses || rows[t].status.Failed?
  }

  /** What the node got under a transfer's reference are the terms of its row. */
  ghost predicate SubmittedOk(submitted: map<TxRef, TxInfo>, rows: map<TransferId, O.Row>, addresses: set<Addr>)
  {
    forall t :: ForTransfer(t) in submitted ==>
      t in rows && submitted[ForTransfer(t)] == TermsOf(rows[t]) && rows[t].sender in addresses
  }

  /** The scanner's batch was read when every internal sender in it was already watched. */
  ghost predicate InternalWatched(batch: seq<Block>, watched: set<Addr>)
  {
    forall b, x :: b in batch && x in b.txs && x.tx.ForTransfer? ==> x.info.sender in watched
  }

  ghost predicate ScanOk(scan: D.Scan)
  {
    match scan
    case LogsRead(_, _, watched, batch) => InternalWatched(batch, watched)
    case TipRead(_, _, watched, batch, _) => InternalWatched(batch, watched)
    case _ => true
  }

  ghost predicate NoInternalRows(rows: map<DepositId, D.Row>)
  {
    forall id :: id in rows ==> id.tx.ForDeposit?
  }

  ghost predicate MinedSomewhere(c: Chain, t: TransferId)
  {
    exists h :: h in c.blocks && MinedIn(c.blocks[h], ForTransfer(t))
  }

  /** A confirmation is backed by a block that mined the transaction. */
  ghost predicate Backed(c: Chain, log: seq<Event>, watch: Option<O.Check>)
  {
    && (forall e :: e in log && e.TxConfirmed? ==> MinedSomewhere(c, e.transfer))
    && (watch.Some? && watch.value.receipt.Some? && watch.value.receipt.value.ok ==>
          MinedSomewhere(c, watch.value.transfer))
  }

  ghost predicate Inv(s: State)
  {
    && PartsOk(s)
    && Sourced(s.w.processed, s.d.log, s.o.log)
    && RequestsOk(s.w.transfers, s.w.outbox)
    && RowsOk(s.w.transfers, s.o.rows)
    && OutgoingLogOk(s.o.log, s.o.rows)
    && SendersOk(s.o.rows, s.d.addresses)
    && SubmittedOk(s.d.chain.submitted, s.o.rows, s.d.addresses)
    && ScanOk(s.d.scan)
    && NoInternalRows(s.d.rows)
    && Backed(s.d.chain, s.o.log, s.o.watch)
  }

  lemma EmptyInv()
    ensures Inv(EMPTY)
  {
    WI.EmptyOk();
    DC.EmptyInv();
  }

  // ---- growth of the logs ----

  lemma EmittedGrows(log: seq<Event>, more: seq<Event>, id: EventId)
    requires log <= more && Emitted(log, id)
    ensures Emitted(more, id)
  {
    var i :| 0 <= i < |log| && Id(log[i]) == id;
    assert more[i] == log[i];
  }

  lemma SourcedGrows(processed: set<EventId>, dlog: seq<Event>, olog: seq<Event>, dmore: seq<Event>, omore: seq<Event>)
    requires Sourced(processed, dlog, olog) && dlog <= dmore && olog <= omore
    ensures Sourced(processed, dmore, omore)
  {
    forall id | id in processed ensures Emitted(dmore, id) || Emitted(omore, id) {
      if Emitted(dlog, id) {
        EmittedGrows(dlog, dmore, id);
      } else {
        EmittedGrows(olog, omore, id);
      }
    }
  }

  lemma {:induction false} UpsertAllGrows(s: D.State, es: seq<D.LogEntry>)
    ensures var r := D.UpsertAll(s, es);
            && r == s.(rows := r.rows, log := r.log)
            && s.log <= r.log
            && (forall id :: id in r.rows ==> id in s.rows || exists e :: e in es && e.id == id)
            && (forall id :: id in s.rows ==> id in r.rows)
  {
    if es != [] {
      UpsertAllGrows(s, es[..|es| - 1]);
      assert es == es[..|es| - 1] + [es[|es| - 1]];
      assert es[|es| - 1] in es;
    }
  }

  lemma DepositLogGrows(s: D.State, cfg: D.Settings, step: D.Step)
    requires D.Enabled(s, cfg, step)
    ensures s.log <= D.Next(s, cfg, step).log
    ensures s.addresses <= D.Next(s, cfg, step).addresses
  {
    if step.ScanCommit? {
      UpsertAllGrows(s, D.Entries(s.scan.batch, s.scan.watched));
    }
  }

  lemma OutgoingLogGrows(s: O.State, cfg: O.Settings, step: O.Step)
    requires O.Enabled(s, cfg, step)
    ensures s.log <= O.Next(s, cfg, step).log
  {
  }

  // ---- wallet steps ----

  /** A transfer keeps its terms while its status moves. */
  lemma TransferKept(w: W.State, ws: W.Step, t: TransferId, sender: Addr, recipient: Addr, amount: int)
    requires HasTransfer(w.transfers, t, sender, recipient, amount)
    ensures HasTransfer(W.Apply(w, ws).transfers, t, sender, recipient, amount)
  {
    var i :| 0 <= i < |w.transfers| && w.transfers[i].id == t && w.transfers[i].fromAddr == sender
             && w.transfers[i].toAddr == recipient && w.transfers[i].req.amount == amount;
    WP.StepRank(w, ws, i);
    assert W.Apply(w, ws).transfers[i] in W.Apply(w, ws).transfers;
  }

  lemma RowsKept(w: W.State, ws: W.Step, rows: map<TransferId, O.Row>)
    requires RowsOk(w.transfers, rows)
    ensures RowsOk(W.Apply(w, ws).transfers, rows)
  {
    forall t | t in rows
      ensures HasTransfer(W.Apply(w, ws).transfers, t, rows[t].sender, rows[t].recipient, rows[t].amount)
    {
      TransferKept(w, ws, t, rows[t].sender, rows[t].recipient, rows[t].amount);
    }
  }

  lemma RequestsKept(w: W.State, ws: W.Step)
    requires RequestsOk(w.transfers, w.outbox)
    ensures RequestsOk(W.Apply(w, ws).transfers, W.Apply(w, ws).outbox)
  {
    var w1 := W.Apply(w, ws);
    forall e | e in w1.outbox
      ensures e.TransferRequested? && HasTransfer(w1.transfers, e.transfer, e.sender, e.recipient, e.amount)
    {
      if e in w.outbox {
        TransferKept(w, ws, e.transfer, e.sender, e.recipient, e.amount);
      } else {
        NewRequest(w, ws, e);
      }
    }
  }

  lemma NewRequest(w: W.State, ws: W.Step, e: Event)
    requires e in W.Apply(w, ws).outbox && e !in w.outbox
    ensures e.TransferRequested? && HasTransfer(W.Apply(w, ws).transfers, e.transfer, e.sender, e.recipient, e.amount)
  {
    if ws.Api? {
      var reply := W.PostTransfer(w, ws.key, ws.req, ws.id).1;
      assert reply.Created202? && e == W.Requested(reply.transfer);
      assert W.Apply(w, ws).transfers[|w.transfers|] == reply.transfer;
    } else if ws.Deliver? {
      HandlersEmitNothing(w.(processed := w.processed + {Id(ws.event)}), ws.event);
    }
  }

  lemma HandlersEmitNothing(w: W.State, e: Event)
    ensures W.Handle(w, e).Done? ==>
          W.Handle(w, e).state.outbox == w.outbox && W.Handle(w, e).state.processed == w.processed
  {
  }

  /** An identifier no transfer carries was never mentioned by an emitted event: fresh in the wallet's own sense. */
  lemma UnusedIsFresh(s: State, id: TransferId)
    requires Inv(s) && (forall t :: t in s.w.transfers ==> t.id != id)
    ensures W.FreshId(s.w, id)
  {
    forall e | e in s.w.processed ensures !W.Mentions(e, id) {
      if Emitted(s.o.log, e) {
        var x :| x in s.o.log && Id(x) == e;
        assert x.transfer in s.o.rows;
        var r := s.o.rows[x.transfer];
        assert HasTransfer(s.w.transfers, x.transfer, r.sender, r.recipient, r.amount);
      } else {
        var x :| x in s.d.log && Id(x) == e;
        assert DC.EventOk(s.d, x);
      }
    }
  }

  lemma WalletKeeps(s: State, ws: W.Step, s1: State)
    requires Inv(s) && W.Enabled(s.w, ws) && s1.w == W.Apply(s.w, ws) && s1.d == s.d && s1.o == s.o
    requires Sourced(s1.w.processed, s.d.log, s.o.log)
    ensures Inv(s1)
  {
    WI.StepKeeps(s.w, ws);
    WP.StepKeepsLink(s.w, ws);
    RowsKept(s.w, ws, s.o.rows);
    RequestsKept(s.w, ws);
  }

  lemma DeliverSourced(s: State, e: Event, crashed: bool)
    requires Inv(s) && (e in s.d.log || e in s.o.log)
    ensures Sourced(W.Apply(s.w, W.Deliver(e, crashed)).processed, s.d.log, s.o.log)
  {
    HandlersEmitNothing(s.w.(processed := s.w.processed + {Id(e)}), e);
    var w1 := W.Apply(s.w, W.Deliver(e, crashed));
    assert w1.processed == s.w.processed || w1.processed == s.w.processed + {Id(e)};
  }

  // ---- outgoing steps ----

  predicate Accepted(os: O.Step, t: TransferId, r: O.Row)
  {
    && os.AcceptRequest? && t == os.transfer
    && r.sender == os.sender && r.recipient == os.recipient && r.amount == os.amount
    && (!os.known ==> r.status.Failed?)
  }

  predicate FromReceipt(watch: Option<O.Check>, t: TransferId)
  {
    watch.Some? && watch.value.transfer == t && watch.value.receipt.Some? && watch.value.receipt.value.ok
  }

  lemma OutgoingRows(s: O.State, cfg: O.Settings, os: O.Step)
    requires O.Inv(s) && O.Enabled(s, cfg, os)
    ensures var s1 := O.Next(s, cfg, os);
            && (forall t :: t in s.rows ==> t in s1.rows && TermsOf(s1.rows[t]) == TermsOf(s.rows[t]))
            && (forall t :: t in s1.rows && t !in s.rows ==> Accepted(os, t, s1.rows[t]))
            && (forall t :: t in s.rows && s.rows[t].status.Failed? ==> s1.rows[t].status.Failed?)
  {
  }

  lemma OutgoingEvents(s: O.State, cfg: O.Settings, os: O.Step)
    requires O.Inv(s) && O.Enabled(s, cfg, os)
    ensures var s1 := O.Next(s, cfg, os);
            && (forall e :: e in s1.log && e !in s.log ==> AboutTransfer(e) && e.transfer in s1.rows)
            && (forall e :: e in s1.log && e !in s.log && e.TxConfirmed? ==> FromReceipt(s.watch, e.transfer))
  {
  }

  lemma LogRows(o: O.State, cfg: O.Settings, os: O.Step)
    requires O.Inv(o) && O.Enabled(o, cfg, os) && OutgoingLogOk(o.log, o.rows)
    ensures OutgoingLogOk(O.Next(o, cfg, os).log, O.Next(o, cfg, os).rows)
  {
    OutgoingRows(o, cfg, os);
    OutgoingEvents(o, cfg, os);
  }

  lemma ReceiptIsMined(c: Chain, t: TransferId)
    requires ChainOk(c)
    ensures var r := ReceiptFor(c.path, t); r.Some? && r.value.ok ==> MinedSomewhere(c, t)
  {
    var i := ReceiptIndex(c.path, ForTransfer(t));
    if i.Some? && MinedIn(c.path[i.value], ForTransfer(t)) {
      var b := c.path[i.value];
      assert b.hash in c.blocks && c.blocks[b.hash] == b;
    }
  }

  lemma OutgoingBacked(s: State, cfg: O.Settings, os: O.Step)
    requires Inv(s) && O.Enabled(s.o, cfg, os)
    requires os.CheckRead? ==> os.receipt == ReceiptFor(s.d.chain.path, os.transfer)
    ensures Backed(s.d.chain, O.Next(s.o, cfg, os).log, O.Next(s.o, cfg, os).watch)
  {
    OutgoingEvents(s.o, cfg, os);
    if os.CheckRead? {
      ReceiptIsMined(s.d.chain, os.transfer);
    }
  }

  lemma OutgoingKeeps(s: State, cfg: Settings, os: O.Step)
    requires Inv(s) && Enabled(s, cfg, OutgoingStep(os))
    ensures Inv(Next(s, cfg, OutgoingStep(os)))
  {
    var o1 := O.Next(s.o, cfg.outgoing, os);
    O.StepKeeps(s.o, cfg.outgoing, os);
    OutgoingLogGrows(s.o, cfg.outgoing, os);
    SourcedGrows(s.w.processed, s.d.log, s.o.log, s.d.log, o1.log);
    LogRows(s.o, cfg.outgoing, os);
    OutgoingBacked(s, cfg.outgoing, os);
    AcceptedRows(s.w.transfers, s.w.outbox, s.o, cfg.outgoing, os);
    KeptRows(s.d.chain.submitted, s.o, cfg.outgoing, os, s.d.addresses);
  }

  lemma AcceptedRows(ts: seq<W.Transfer>, outbox: seq<Event>, o: O.State, cfg: O.Settings, os: O.Step)
    requires O.Inv(o) && O.Enabled(o, cfg, os) && RequestsOk(ts, outbox) && RowsOk(ts, o.rows)
    requires os.AcceptRequest? ==> Asked(outbox, os)
    ensures RowsOk(ts, O.Next(o, cfg, os).rows)
  {
    var o1 := O.Next(o, cfg, os);
    OutgoingRows(o, cfg, os);
    forall t | t in o1.rows ensures HasTransfer(ts, t, o1.rows[t].sender, o1.rows[t].recipient, o1.rows[t].amount) {
      if t in o.rows {
        assert TermsOf(o1.rows[t]) == TermsOf(o.rows[t]);
      } else {
        assert Accepted(os, t, o1.rows[t]) && Asked(outbox, os);
      }
    }
  }

  lemma KeptRows(submitted: map<TxRef, TxInfo>, o: O.State, cfg: O.Settings, os: O.Step, addresses: set<Addr>)
    requires O.Inv(o) && O.Enabled(o, cfg, os) && SendersOk(o.rows, addresses)
    requires SubmittedOk(submitted, o.rows, addresses)
    requires os.AcceptRequest? ==> os.known == (os.sender in addresses)
    ensures SendersOk(O.Next(o, cfg, os).rows, addresses) && SubmittedOk(submitted, O.Next(o, cfg, os).rows, addresses)
  {
    var o1 := O.Next(o, cfg, os);
    OutgoingRows(o, cfg, os);
    forall t | t in o1.rows ensures o1.rows[t].sender in addresses || o1.rows[t].status.Failed? {
      if t in o.rows {
        assert TermsOf(o1.rows[t]) == TermsOf(o.rows[t]);
      }
    }
    forall t | ForTransfer(t) in submitted
      ensures t in o1.rows && submitted[ForTransfer(t)] == TermsOf(o1.rows[t]) && o1.rows[t].sender in addresses
    {
      assert t in o.rows && TermsOf(o1.rows[t]) == TermsOf(o.rows[t]);
    }
  }

  // ---- deposit and chain steps ----

  lemma MinedStays(c: Chain, d: Chain, t: TransferId)
    requires MinedSomewhere(c, t) && (forall h :: h in c.blocks ==> h in d.blocks && d.blocks[h] == c.blocks[h])
    ensures MinedSomewhere(d, t)
  {
    var h :| h in c.blocks && MinedIn(c.blocks[h], ForTransfer(t));
    assert h in d.blocks && MinedIn(d.blocks[h], ForTransfer(t));
  }

  lemma BackedStays(c: Chain, d: Chain, log: seq<Event>, watch: Option<O.Check>)
    requires Backed(c, log, watch) && (forall h :: h in c.blocks ==> h in d.blocks && d.blocks[h] == c.blocks[h])
    ensures Backed(d, log, watch)
  {
    forall e | e in log && e.TxConfirmed? ensures MinedSomewhere(d, e.transfer) {
      MinedStays(c, d, e.transfer);
    }
    if watch.Some? && watch.value.receipt.Some? && watch.value.receipt.value.ok {
      MinedStays(c, d, watch.value.transfer);
    }
  }

  /** At the moment the logs are read, every internal sender in them is watched. */
  lemma LogsReadWatched(c: Chain, rows: map<TransferId, O.Row>, addresses: set<Addr>, batch: seq<Block>)
    requires ChainOk(c) && SubmittedOk(c.submitted, rows, addresses) && (forall b :: b in batch ==> b in c.path)
    ensures InternalWatched(batch, addresses)
  {
    forall b, x | b in batch && x in b.txs && x.tx.ForTransfer? ensures x.info.sender in addresses {
      var i :| 0 <= i < |c.path| && c.path[i] == b;
      assert FromMempool(c.blocks[b.hash].txs, c.submitted);
      assert ForTransfer(x.tx.transfer) in c.submitted;
    }
  }

  lemma {:induction false} ExternalOnly(b: Block, txs: seq<Included>, watched: set<Addr>)
    requires forall x :: x in txs && x.tx.ForTransfer? ==> x.info.sender in watched
    ensures forall e :: e in D.External(b, txs, watched) ==> e.id.tx.ForDeposit?
  {
    if txs != [] {
      ExternalOnly(b, txs[..|txs| - 1], watched);
      assert txs[|txs| - 1] in txs;
    }
  }

  lemma {:induction false} EntriesExternal(batch: seq<Block>, watched: set<Addr>)
    requires InternalWatched(batch, watched)
    ensures forall e :: e in D.Entries(batch, watched) ==> e.id.tx.ForDeposit?
  {
    if batch != [] {
      var b := batch[|batch| - 1];
      EntriesExternal(batch[..|batch| - 1], watched);
      assert b in batch;
      ExternalOnly(b, b.txs, watched);
    }
  }

  lemma ScannerKeeps(s: State, cfg: D.Settings, ds: D.Step)
    requires Inv(s) && D.Enabled(s.d, cfg, ds)
    ensures ScanOk(D.Next(s.d, cfg, ds).scan) && NoInternalRows(D.Next(s.d, cfg, ds).rows)
  {
    if ds.ScanLogs? {
      var batch := D.Blocks(s.d.chain.path, s.d.scan.first, s.d.scan.last);
      LogsReadWatched(s.d.chain, s.o.rows, s.d.addresses, batch);
    } else if ds.ScanCommit? {
      var es := D.Entries(s.d.scan.batch, s.d.scan.watched);
      EntriesExternal(s.d.scan.batch, s.d.scan.watched);
      UpsertAllGrows(s.d, es);
    }
  }

  lemma SameChain(s: D.State, cfg: D.Settings, ds: D.Step)
    requires D.Enabled(s, cfg, ds) && !ds.ChainStep?
    ensures D.Next(s, cfg, ds).chain == s.chain
  {
    if ds.ScanCommit? {
      UpsertAllGrows(s, D.Entries(s.scan.batch, s.scan.watched));
    }
  }

  lemma ChainStepKeeps(s: State, c: NodeStep)
    requires Inv(s) && NodeEnabled(s.d.chain, c)
    requires c.Submit? ==> (c.tx.ForTransfer? ==>
               c.tx.transfer in s.o.rows && c.info == TermsOf(s.o.rows[c.tx.transfer])
                   && c.info.sender in s.d.addresses)
    ensures SubmittedOk(NodeNext(s.d.chain, c).submitted, s.o.rows, s.d.addresses)
    ensures Backed(NodeNext(s.d.chain, c), s.o.log, s.o.watch)
  {
    BackedStays(s.d.chain, NodeNext(s.d.chain, c), s.o.log, s.o.watch);
  }

  lemma DepositKeeps(s: State, cfg: Settings, ds: D.Step)
    requires Inv(s) && Enabled(s, cfg, DepositStep(ds))
    ensures Inv(Next(s, cfg, DepositStep(ds)))
  {
    var d1 := D.Next(s.d, cfg.deposits, ds);
    DC.StepKeeps(s.d, cfg.deposits, ds);
    DepositLogGrows(s.d, cfg.deposits, ds);
    SourcedGrows(s.w.processed, s.d.log, s.o.log, d1.log, s.o.log);
    ScannerKeeps(s, cfg.deposits, ds);
    if ds.ChainStep? {
      ChainStepKeeps(s, ds.step);
    } else {
      SameChain(s.d, cfg.deposits, ds);
    }
  }

  lemma NodeReceivesKeeps(s: State, cfg: Settings, t: TransferId)
    requires Inv(s) && Enabled(s, cfg, NodeReceives(t))
    ensures Inv(Next(s, cfg, NodeReceives(t)))
  {
    var c := Submit(ForTransfer(t), TermsOf(s.o.rows[t]));
    DC.ChainKeeps(s.d, cfg.deposits, c);
    assert D.Next(s.d, cfg.deposits, D.ChainStep(c)) == Next(s, cfg, NodeReceives(t)).d;
    ChainStepKeeps(s, c);
  }

  // ---- every step, every run ----

  lemma StepKeeps(s: State, cfg: Settings, step: Step)
    requires Inv(s) && Enabled(s, cfg, step)
    ensures Inv(Next(s, cfg, step))
  {
    match step
    case WalletStep(ws) =>
      if ws.Api? {
        UnusedIsFresh(s, ws.id);
      }
      WalletKeeps(s, ws, Next(s, cfg, step));
    case Deliver(e, crashed) =>
      DeliverSourced(s, e, crashed);
      WalletKeeps(s, W.Deliver(e, crashed), Next(s, cfg, step));
    case DepositStep(ds) => DepositKeeps(s, cfg, ds);
    case OutgoingStep(os) => OutgoingKeeps(s, cfg, os);
    case NodeReceives(t) => NodeReceivesKeeps(s, cfg, t);
  }

  lemma {:induction false} RunKeeps(s: State, cfg: Settings, steps: seq<Step>)
    requires Inv(s) && ValidRun(s, cfg, steps)
    ensures Inv(Run(s, cfg, steps))
    decreases |steps|
  {
    if steps != [] {
      StepKeeps(s, cfg, steps[0]);
      RunKeeps(Next(s, cfg, steps[0]), cfg, steps[1..]);
    }
  }
}
