/**
  * Both services and the chain as one system. Events reach the wallet in any order, any number of
  * times, and only if they were emitted; requests reach the blockchain service only if the wallet
  * made them; receipts come from the chain.
  */
module World {
  import opened Events
  import opened ChainModel
  import W = Wallet
  import D = Deposits
  import O = Outgoing

  datatype Settings = Settings(deposits: D.Settings, outgoing: O.Settings)

  /** `ignored` is history: the processed events whose handler found no transfer or no wallet. */
  datatype State = State(w: W.State, d: D.State, o: O.State, ignored: set<EventId>)

  datatype Step =
    | WalletStep(ws: W.Step)
    | Deliver(event: Event, crashed: bool)
    | DepositStep(ds: D.Step)
    | OutgoingStep(os: O.Step)
    | NodeReceives(transfer: TransferId)

  predicate MinedIn(b: Block, tx: TxRef) { exists x :: x in b.txs && x.tx == tx && x.logIndex.Some? }

  function ReceiptFor(path: seq<Block>, t: TransferId): Option<O.Receipt>
  {
    match ReceiptIndex(path, ForTransfer(t))
    case None => None
    case Some(i) => Some(O.Receipt(i + 1, path[i].hash, MinedIn(path[i], ForTransfer(t))))
  }

  ghost predicate Asked(outbox: seq<Event>, os: O.Step)
    requires os.AcceptRequest?
  {
    exists asset :: TransferRequested(os.transfer, os.sender, os.recipient, asset, os.amount) in outbox
  }

  ghost predicate Enabled(s: State, cfg: Settings, step: Step)
  {
    match step
    case WalletStep(ws) => !ws.Deliver? && (ws.Api? ==> forall t :: t in s.w.transfers ==> t.id != ws.id)
    case Deliver(e, _) => e in s.d.log || e in s.o.log
    case DepositStep(ds) =>
      D.Enabled(s.d, cfg.deposits, ds) && (ds.ChainStep? && ds.step.Submit? ==> ds.step.tx.ForDeposit?)
    case OutgoingStep(os) =>
      && O.Enabled(s.o, cfg.outgoing, os)
      && (os.AcceptRequest? ==> os.known == (os.sender in s.d.addresses) && Asked(s.w.outbox, os))
      && (os.SendOk? ==> ForTransfer(os.transfer) in s.d.chain.submitted)
      && (os.CheckRead? ==> os.receipt == ReceiptFor(s.d.chain.path, os.transfer))
    case NodeReceives(t) => t in s.o.flight && t in s.o.rows && s.o.rows[t].amount > 0
  }

  predicate Unheard(w: W.State, e: Event, crashed: bool)
  {
    && !crashed && Id(e) !in w.processed
    && var r := W.Handle(w.(processed := w.processed + {Id(e)}), e); r.Done? && r.tag.Ignored?
  }

  function TermsOf(r: O.Row): TxInfo { TxInfo(r.sender, r.recipient, r.amount, false) }

  ghost function Next(s: State, cfg: Settings, step: Step): State
    requires Enabled(s, cfg, step)
  {
    match step
    case WalletStep(ws) => s.(w := W.Apply(s.w, ws))
    case Deliver(e, crashed) =>
      s.(w := W.Apply(s.w, W.Deliver(e, crashed)),
         ignored := if Unheard(s.w, e, crashed) then s.ignored + {Id(e)} else s.ignored)
    case DepositStep(ds) => s.(d := D.Next(s.d, cfg.deposits, ds))
    case OutgoingStep(os) => s.(o := O.Next(s.o, cfg.outgoing, os))
    case NodeReceives(t) =>
      s.(d := s.d.(chain := NodeNext(s.d.chain, Submit(ForTransfer(t), TermsOf(s.o.rows[t])))))
  }

  ghost predicate ValidRun(s: State, cfg: Settings, steps: seq<Step>)
    decreases |steps|
  {
    steps == [] || (Enabled(s, cfg, steps[0]) && ValidRun(Next(s, cfg, steps[0]), cfg, steps[1..]))
  }

  ghost function Run(s: State, cfg: Settings, steps: seq<Step>): State
    requires ValidRun(s, cfg, steps)
    decreases |steps|
  {
    if steps == [] then s else Run(Next(s, cfg, steps[0]), cfg, steps[1..])
  }

  const EMPTY: State := State(W.EMPTY, D.EMPTY, O.EMPTY, {})
}
