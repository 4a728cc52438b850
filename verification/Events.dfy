/** Identifiers and the event catalogue shared by the two services. */
module Events {

  datatype Option<+T> = None | Some(value: T)

  type UserId = int
  type Asset = string
  type Addr = nat
  type TransferId = nat
  /** Block hashes are fresh identities: mining draws one that was never used. */
  type Hash = nat

  /**
    * A transaction hash is an injective function of its `client_ref`, so the reference stands for
    * the hash. Transfer ids and the references of external deposits are disjoint.
    */
  datatype TxRef = ForTransfer(transfer: TransferId) | ForDeposit(ref: nat)

  /** The chain identity of a deposit: the key of `uq_deposit_chain_identity` on one network. */
  datatype DepositId = DepositId(tx: TxRef, logIndex: nat)

  datatype FailCode =
    | UnknownSendingAddress
    | RejectedByNode
    | RpcUnavailable
    | BroadcastFailed
    | RevertedOnChain
    | StuckPending
    | ChainReorg(block: Option<Hash>)

  datatype Event =
    | DepositDetected(dep: DepositId, block: Hash)
    | DepositConfirmed(dep: DepositId, block: Hash, to: Addr, asset: Asset, amount: int)
    | DepositReorged(dep: DepositId, block: Hash, to: Addr, asset: Asset, amount: int, wasConfirmed: bool)
    | TxBroadcasted(transfer: TransferId)
    | TxConfirmed(transfer: TransferId)
    | TxFailed(transfer: TransferId, code: FailCode, wasConfirmed: bool)
    | TransferRequested(transfer: TransferId, sender: Addr, recipient: Addr, asset: Asset, amount: int)

  /** UUIDv5 over `event_type|dedupe_key`: an injective function of the type and the natural key. */
  datatype EventId =
    | DetectedId(dep: DepositId, block: Hash)
    | ConfirmedId(dep: DepositId, block: Hash)
    | ReorgedId(dep: DepositId, block: Hash)
    | BroadcastedId(transfer: TransferId)
    | TxConfirmedId(transfer: TransferId)
    | TxFailedId(transfer: TransferId, code: FailCode)
    | RequestedId(transfer: TransferId)

  function Id(e: Event): EventId
  {
    match e
    case DepositDetected(dep, block) => DetectedId(dep, block)
    case DepositConfirmed(dep, block, _, _, _) => ConfirmedId(dep, block)
    case DepositReorged(dep, block, _, _, _, _) => ReorgedId(dep, block)
    case TxBroadcasted(transfer) => BroadcastedId(transfer)
    case TxConfirmed(transfer) => TxConfirmedId(transfer)
    case TxFailed(transfer, code, _) => TxFailedId(transfer, code)
    case TransferRequested(transfer, _, _, _, _) => RequestedId(transfer)
  }

  predicate Emitted(log: seq<Event>, id: EventId)
  {
    exists e :: e in log && Id(e) == id
  }

  /** `INSERT INTO outbox ... ON CONFLICT (event_id) DO NOTHING`. */
  function Enqueue(log: seq<Event>, e: Event): seq<Event>
  {
    if Emitted(log, Id(e)) then log else log + [e]
  }

  /** The outbox only grows, by the event or not at all, and no identifier enters it twice. */
  lemma EnqueueOnce(log: seq<Event>, e: Event)
    ensures log <= Enqueue(log, e)
    ensures Emitted(Enqueue(log, e), Id(e))
    ensures forall id :: Emitted(Enqueue(log, e), id) ==> Emitted(log, id) || id == Id(e)
    ensures UniqueIds(log) ==> UniqueIds(Enqueue(log, e))
  {
    if !Emitted(log, Id(e)) {
      assert (log + [e])[|log|] == e;
    }
  }

  ghost predicate UniqueIds(log: seq<Event>)
  {
    forall i, j :: 0 <= i < j < |log| ==> Id(log[i]) != Id(log[j])
  }
}
