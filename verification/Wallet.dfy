/**
  * The wallet service as a state machine. Every handler is one transaction: it either yields the
  * whole new state or, when it raises or trips a constraint, leaves the state untouched.
  */
module Wallet {
  import opened Events
  import opened Ledger

  datatype Status = Created | Processing | Broadcast | Confirmed | Failed

  predicate Open(s: Status) { s.Created? || s.Processing? || s.Broadcast? }

  function Rank(s: Status): nat
  {
    match s
    case Created => 0
    case Processing => 1
    case Broadcast => 2
    case Confirmed => 3
    case Failed => 4
  }

  /** The canonical request; its SHA-256 fingerprint is injective, so the request stands for it. */
  datatype Request = Request(sender: UserId, recipient: UserId, asset: Asset, network: string, amount: int)

  datatype Transfer = Transfer(id: TransferId, key: string, req: Request, fromAddr: Addr, toAddr: Addr, status: Status)

  /** A row of `idempotency_keys`. Status 0 is the placeholder written by `claim`. */
  datatype KeyRow = KeyRow(request: Request, status: nat, body: Option<Transfer>)

  datatype WalletKey = WalletKey(user: UserId, network: string, asset: Asset)
  datatype WalletRow = WalletRow(address: Addr, active: bool)

  /** Users (with their ACTIVE flag), wallets, and the owner of every issued address. */
  datatype Directory = Directory(
    users: map<UserId, bool>, wallets: map<WalletKey, WalletRow>, owners: map<Addr, UserId>)

  datatype State = State(
    books: Books,
    transfers: seq<Transfer>,
    keys: map<string, KeyRow>,
    processed: set<EventId>,
    outbox: seq<Event>,
    directory: Directory)

  datatype Label = Processed | Duplicate | Ignored
  datatype Outcome = Aborted | Done(state: State, tag: Label)

  const ACCEPTED_202: nat := 202
  const PLACEHOLDER: nat := 0

  function SenderAccount(t: Transfer): Account { Account(t.req.sender, t.req.asset) }
  function RecipientAccount(t: Transfer): Account { Account(t.req.recipient, t.req.asset) }
  function RefOf(t: Transfer): Reference { TransferReference(t.id) }

  function Find(ts: seq<Transfer>, id: TransferId): (r: Option<nat>)
    ensures r.Some? ==> r.value < |ts| && ts[r.value].id == id
    ensures r.None? ==> forall t :: t in ts ==> t.id != id
  {
    if ts == [] then None
    else if ts[|ts| - 1].id == id then Some(|ts| - 1)
    else Find(ts[..|ts| - 1], id)
  }

  function WithStatus(ts: seq<Transfer>, i: nat, s: Status): seq<Transfer>
    requires i < |ts|
  {
    ts[i := ts[i].(status := s)]
  }

  // ---- postings of a settlement and of its reversal ----

  function Debit(t: Transfer): Posting { Posting(t.req.sender, -t.req.amount, TransferDebit, RefOf(t)) }
  function Credit(t: Transfer): Posting { Posting(t.req.recipient, t.req.amount, TransferCredit, RefOf(t)) }
  function Refund(t: Transfer): Posting { Posting(t.req.sender, t.req.amount, Reversal, RefOf(t)) }
  function Clawback(t: Transfer): Posting { Posting(t.req.recipient, -t.req.amount, Reversal, RefOf(t)) }

  // ---- transfers.py ----

  datatype CreateError =
    | SameParties | UserNotFound | UserInactive | WalletNotFound | WalletInactive | InsufficientFunds | AlreadyCreated

  datatype CreateResult = Rejected(error: CreateError) | Accepted(state: State, transfer: Transfer)

  function CreateTransfer(w: State, key: string, req: Request, id: TransferId): CreateResult
  {
    var d := w.directory;
    var senderKey := WalletKey(req.sender, req.network, req.asset);
    var recipientKey := WalletKey(req.recipient, req.network, req.asset);
    if req.sender == req.recipient then Rejected(SameParties)
    else if req.sender !in d.users || req.recipient !in d.users then Rejected(UserNotFound)
    else if !d.users[req.sender] || !d.users[req.recipient] then Rejected(UserInactive)
    else if senderKey !in d.wallets || recipientKey !in d.wallets then Rejected(WalletNotFound)
    else if !d.wallets[senderKey].active || !d.wallets[recipientKey].active then Rejected(WalletInactive)
    else
      var a := Account(req.sender, req.asset);
      var locked := WithBalance(w.books, a);
      match PlaceHold(locked, a, req.amount)
      case None => Rejected(InsufficientFunds)
      case Some(held) =>
        if !Solvent(held.balances[a]) || req.amount <= 0 || KeyTaken(w.transfers, key) then Rejected(AlreadyCreated)
        else
          var t := Transfer(id, key, req, d.wallets[senderKey].address, d.wallets[recipientKey].address, Created);
          Accepted(w.(books := held, transfers := w.transfers + [t], outbox := Enqueue(w.outbox, Requested(t))), t)
  }

  predicate KeyTaken(ts: seq<Transfer>, key: string) { exists t :: t in ts && t.key == key }

  function Requested(t: Transfer): Event
  {
    TransferRequested(t.id, t.fromAddr, t.toAddr, t.req.asset, t.req.amount)
  }

  function MarkBroadcasted(w: State, id: TransferId): Outcome
  {
    match Find(w.transfers, id)
    case None => Done(w, Ignored)
    case Some(i) =>
      if !Open(w.transfers[i].status) then Done(w, Duplicate)
      else Done(w.(transfers := WithStatus(w.transfers, i, Broadcast)), Processed)
  }

  function Settle(w: State, id: TransferId): Outcome
  {
    match Find(w.transfers, id)
    case None => Done(w, Ignored)
    case Some(i) =>
      var t := w.transfers[i];
      if t.status.Confirmed? then Done(w, Duplicate)
      else if t.status.Failed? then Done(w, Ignored)
      else
        match ReleaseHold(w.books, SenderAccount(t), t.req.amount)
        case None => Aborted
        case Some(released) =>
          match PostEntries(released, t.req.asset, [Debit(t), Credit(t)])
          case Refused => Aborted
          case Posted(posted, _) =>
            Done(w.(books := posted, transfers := WithStatus(w.transfers, i, Confirmed)), Processed)
  }

  function FailTransfer(w: State, id: TransferId): Outcome
  {
    match Find(w.transfers, id)
    case None => Done(w, Ignored)
    case Some(i) =>
      var t := w.transfers[i];
      if t.status.Failed? then Done(w, Duplicate)
      else if t.status.Confirmed? then
        match PostEntries(w.books, t.req.asset, [Refund(t), Clawback(t)])
        case Refused => Aborted
        case Posted(posted, _) =>
          Done(w.(books := posted, transfers := WithStatus(w.transfers, i, Failed)), Processed)
      else
        match ReleaseHold(w.books, SenderAccount(t), t.req.amount)
        case None => Aborted
        case Some(released) =>
          Done(w.(books := released, transfers := WithStatus(w.transfers, i, Failed)), Processed)
  }

  // ---- deposits.py ----

  function PostDeposit(
      w: State, to: Addr, asset: Asset, amount: int, kind: EntryKind, dep: DepositId, block: Hash): Outcome
  {
    if to !in w.directory.owners then Done(w, Ignored)
    else
      match PostEntries(w.books, asset, [Posting(w.directory.owners[to], amount, kind, DepositReference(dep, block))])
      case Refused => Aborted
      case Posted(b, n) => Done(w.(books := b), if n == 0 then Duplicate else Processed)
  }

  // ---- dispatcher.py ----

  function Handle(w: State, e: Event): Outcome
  {
    match e
    case DepositDetected(_, _) => Done(w, Processed)
    case DepositConfirmed(dep, block, to, asset, amount) => PostDeposit(w, to, asset, amount, DepositCredit, dep, block)
    case DepositReorged(dep, block, to, asset, amount, wasConfirmed) =>
      if !wasConfirmed then Done(w, Processed) else PostDeposit(w, to, asset, -amount, Reversal, dep, block)
    case TxBroadcasted(t) => MarkBroadcasted(w, t)
    case TxConfirmed(t) => Settle(w, t)
    case TxFailed(t, _, _) => FailTransfer(w, t)
    case TransferRequested(_, _, _, _, _) => Done(w, Ignored)
  }

  /** The dedupe row and the handler share one transaction. */
  function Dispatch(w: State, e: Event): State
  {
    if Id(e) in w.processed then w
    else
      match Handle(w.(processed := w.processed + {Id(e)}), e)
      case Aborted => w
      case Done(w1, _) => w1
  }

  // ---- idempotency.py and post_transfer ----

  datatype Reply =
    | Replayed(row: KeyRow)
    | KeyReused
    | KeyInProgress
    | Declined(error: CreateError)
    | Created202(transfer: Transfer)

  function Claim(w: State, key: string, req: Request): State
    requires key !in w.keys
  {
    w.(keys := w.keys[key := KeyRow(req, PLACEHOLDER, None)])
  }

  function Complete(w: State, key: string, req: Request, t: Transfer): State
  {
    w.(keys := w.keys[key := KeyRow(req, ACCEPTED_202, Some(t))])
  }

  function PostTransfer(w: State, key: string, req: Request, id: TransferId): (State, Reply)
  {
    if key in w.keys then
      var row := w.keys[key];
      if row.request != req then (w, KeyReused)
      else if row.status == PLACEHOLDER then (w, KeyInProgress)
      else (w, Replayed(row))
    else
      match CreateTransfer(Claim(w, key, req), key, req, id)
      case Rejected(error) => (w, Declined(error))
      case Accepted(w1, t) => (Complete(w1, key, req, t), Created202(t))
  }

  // ---- progress.py ----

  function Progressed(t: Transfer, published: set<TransferId>): Transfer
  {
    if t.status.Created? && t.id in published then t.(status := Processing) else t
  }

  function Advance(w: State, published: set<TransferId>): State
  {
    w.(transfers := seq(|w.transfers|, i requires 0 <= i < |w.transfers| => Progressed(w.transfers[i], published)))
  }

  // ---- attach_wallet (unique keys, insert once) ----

  function Attach(w: State, k: WalletKey, address: Addr): State
  {
    if k in w.directory.wallets || address in w.directory.owners then w
    else
      w.(books := WithBalance(w.books, Account(k.user, k.asset)),
         directory := w.directory.(wallets := w.directory.wallets[k := WalletRow(address, true)],
                                   owners := w.directory.owners[address := k.user]))
  }

  // ---- runs ----

  datatype Step =
    | Api(key: string, req: Request, id: TransferId)
    | Deliver(event: Event, crashed: bool)
    | Progress(published: set<TransferId>)
    | AttachWallet(walletKey: WalletKey, address: Addr)
    | SetUser(user: UserId, active: bool)

  function Apply(w: State, s: Step): State
  {
    match s
    case Api(key, req, id) => PostTransfer(w, key, req, id).0
    case Deliver(e, crashed) => if crashed then w else Dispatch(w, e)
    case Progress(published) => Advance(w, published)
    case AttachWallet(k, address) => Attach(w, k, address)
    case SetUser(user, active) => w.(directory := w.directory.(users := w.directory.users[user := active]))
  }

  predicate Mentions(id: EventId, t: TransferId)
  {
    match id
    case TxConfirmedId(x) => x == t
    case TxFailedId(x, _) => x == t
    case _ => false
  }

  /** A fresh UUID: no row carries it and no event about it was ever handled. */
  ghost predicate FreshId(w: State, id: TransferId)
  {
    && (forall t :: t in w.transfers ==> t.id != id)
    && (forall e :: e in w.processed ==> !Mentions(e, id))
  }

  ghost predicate Enabled(w: State, s: Step)
  {
    s.Api? ==> FreshId(w, s.id)
  }

  ghost predicate ValidRun(w: State, steps: seq<Step>)
    decreases |steps|
  {
    steps == [] || (Enabled(w, steps[0]) && ValidRun(Apply(w, steps[0]), steps[1..]))
  }

  function Run(w: State, steps: seq<Step>): State
    decreases |steps|
  {
    if steps == [] then w else Run(Apply(w, steps[0]), steps[1..])
  }

  const EMPTY: State := State(Books([], map[]), [], map[], {}, [], Directory(map[], map[], map[]))
}
