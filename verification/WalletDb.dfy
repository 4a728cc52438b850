/**
  * The wallet service's database and the handlers that change it in place. A handler that raises
  * leaves partial writes behind, which its transaction then rolls back.
  */
module WalletDb {
  import opened Events
  import opened Sums
  import opened Ledger
  import opened Wallet
  import opened WalletInvariant
  import opened WalletProperties
  import opened Requests

  datatype ReportRow = ReportRow(posted: int, ledgerSum: int, reserved: int, consistent: bool)

  class WalletDb {
    var entries: seq<Entry>
    var balances: map<Account, Balance>
    var transfers: seq<Transfer>
    var keys: map<string, KeyRow>
    var processed: set<EventId>
    var outbox: seq<Event>
    var directory: Directory

    function Value(): State
      reads this
    {
      State(Books(entries, balances), transfers, keys, processed, outbox, directory)
    }

    ghost predicate Valid()
      reads this
    {
      ValidState(Value())
    }

    constructor ()
      ensures Valid() && Value() == EMPTY
    {
      entries, balances, transfers, keys, processed, outbox := [], map[], [], map[], {}, [];
      directory := Directory(map[], map[], map[]);
      new;
      EmptyOk();
    }

    /** ROLLBACK. */
    method Restore(w: State)
      modifies this
      ensures Value() == w
    {
      entries, balances, transfers := w.books.entries, w.books.balances, w.transfers;
      keys, processed, outbox, directory := w.keys, w.processed, w.outbox, w.directory;
    }

    // ---- ledger.py ----

    method EnsureBalance(a: Account)
      modifies this`balances
      ensures Books(entries, balances) == WithBalance(Books(entries, old(balances)), a)
    {
      if a !in balances {
        balances := balances[a := Balance(0, 0)];
      }
    }

    /** One turn of the posting loop; raises when a constraint is violated. */
    method PostOne(asset: Asset, p: Posting) returns (raised: bool, wrote: nat)
      modifies this`entries, this`balances
      ensures match Ledger.PostOne(Books(old(entries), old(balances)), asset, p)
              case Refused => raised
              case Posted(b, n) => !raised && Books(entries, balances) == b && wrote == n
    {
      var a := Account(p.user, asset);
      EnsureBalance(a);
      if HasKey(entries, Key(p.user, p.kind, p.ref)) {
        return false, 0;
      }
      if p.amount == 0 {
        return true, 0;
      }
      entries := entries + [EntryFor(asset, p)];
      balances := balances[a := balances[a].(posted := balances[a].posted + p.amount)];
      raised, wrote := !Solvent(balances[a]), 1;
    }

    method PostEntries(asset: Asset, ps: seq<Posting>) returns (raised: bool, written: nat)
      modifies this`entries, this`balances
      ensures match Ledger.PostEntries(Books(old(entries), old(balances)), asset, ps)
              case Refused => raised
              case Posted(b, n) => !raised && Books(entries, balances) == b && written == n
    {
      var sorted := SortByUser(ps);
      ghost var start := Books(entries, balances);
      raised, written := false, 0;
      var i := 0;
      while i < |sorted| && !raised
        invariant i <= |sorted|
        invariant !raised ==>
          PostAll(start, asset, sorted) == AddWritten(PostAll(Books(entries, balances), asset, sorted[i..]), written)
        invariant raised ==> PostAll(start, asset, sorted).Refused?
        decreases |sorted| - i
      {
        assert sorted[i..][1..] == sorted[i + 1..];
        var n;
        raised, n := PostOne(asset, sorted[i]);
        written := written + n;
        i := i + 1;
      }
    }

    method PlaceHold(a: Account, amount: int) returns (held: bool)
      modifies this`balances
      ensures match Ledger.PlaceHold(Books(entries, old(balances)), a, amount)
              case None => !held && balances == old(balances)
              case Some(b) => held && Books(entries, balances) == b
    {
      held := false;
      if a in balances && balances[a].posted - balances[a].reserved >= amount {
        balances := balances[a := balances[a].(reserved := balances[a].reserved + amount)];
        held := true;
      }
    }

    method ReleaseHold(a: Account, amount: int) returns (raised: bool)
      modifies this`balances
      ensures match Ledger.ReleaseHold(Books(entries, old(balances)), a, amount)
              case None => raised
              case Some(b) => !raised && Books(entries, balances) == b
    {
      raised := false;
      if a in balances {
        balances := balances[a := balances[a].(reserved := balances[a].reserved - amount)];
        raised := !Solvent(balances[a]);
      }
    }

    /**
      * A row per snapshot, with the true ledger sum; in a valid database each is consistent and no entry is left out.
      */
    method Reconcile() returns (report: map<Account, ReportRow>)
      requires Valid()
      ensures report.Keys == balances.Keys
      ensures forall a :: a in report ==>
                report[a] == ReportRow(balances[a].posted, Sum(entries, OnAccount(a)), Sum(transfers, HoldOn(a)), true)
      ensures forall e :: e in entries ==> AccountOf(e) in report
    {
      report := map[];
      var rest := balances.Keys;
      while rest != {}
        invariant rest <= balances.Keys && report.Keys == balances.Keys - rest
        invariant forall a :: a in report ==>
                    var sum := Sum(entries, OnAccount(a));
                    report[a] == ReportRow(balances[a].posted, sum, balances[a].reserved, balances[a].posted == sum)
        decreases rest
      {
        var a :| a in rest;
        var total := Sum(entries, OnAccount(a));
        report := report[a := ReportRow(balances[a].posted, total, balances[a].reserved, balances[a].posted == total)];
        rest := rest - {a};
      }
    }

    // ---- transfers.py ----

    method SetStatus(i: nat, status: Status)
      requires i < |transfers|
      modifies this`transfers
      ensures transfers == WithStatus(old(transfers), i, status)
    {
      transfers := transfers[i := transfers[i].(status := status)];
    }

    method MarkBroadcasted(id: TransferId) returns (r: Option<Label>)
      modifies this
      ensures Matches(Wallet.MarkBroadcasted(old(Value()), id), r, Value())
    {
      var i := Find(transfers, id);
      if i.None? {
        return Some(Ignored);
      }
      if !Open(transfers[i.value].status) {
        return Some(Duplicate);
      }
      SetStatus(i.value, Broadcast);
      r := Some(Processed);
    }

    method SettleTransfer(id: TransferId) returns (r: Option<Label>)
      modifies this
      ensures Matches(Settle(old(Value()), id), r, Value())
    {
      var i := Find(transfers, id);
      if i.None? {
        return Some(Ignored);
      }
      var t := transfers[i.value];
      if t.status.Confirmed? {
        return Some(Duplicate);
      }
      if t.status.Failed? {
        return Some(Ignored);
      }
      var raised := ReleaseHold(SenderAccount(t), t.req.amount);
      if raised {
        return None;
      }
      var written;
      raised, written := PostEntries(t.req.asset, [Debit(t), Credit(t)]);
      if raised {
        return None;
      }
      SetStatus(i.value, Confirmed);
      r := Some(Processed);
    }

    method FailTransfer(id: TransferId) returns (r: Option<Label>)
      modifies this
      ensures Matches(Wallet.FailTransfer(old(Value()), id), r, Value())
    {
      var i := Find(transfers, id);
      if i.None? {
        return Some(Ignored);
      }
      var t := transfers[i.value];
      if t.status.Failed? {
        return Some(Duplicate);
      }
      var raised, written := false, 0;
      if t.status.Confirmed? {
        raised, written := PostEntries(t.req.asset, [Refund(t), Clawback(t)]);
      } else {
        raised := ReleaseHold(SenderAccount(t), t.req.amount);
      }
      if raised {
        return None;
      }
      SetStatus(i.value, Failed);
      r := Some(Processed);
    }

    // ---- deposits.py ----

    method PostDeposit(
        to: Addr, asset: Asset, amount: int, kind: EntryKind, dep: DepositId, block: Hash) returns (r: Option<Label>)
      modifies this
      ensures Matches(Wallet.PostDeposit(old(Value()), to, asset, amount, kind, dep, block), r, Value())
    {
      if to !in directory.owners {
        return Some(Ignored);
      }
      var posting := Posting(directory.owners[to], amount, kind, DepositReference(dep, block));
      var raised, written := PostEntries(asset, [posting]);
      r := if raised then None else Some(if written == 0 then Duplicate else Processed);
    }

    // ---- dispatcher.py ----

    method Handle(e: Event) returns (r: Option<Label>)
      modifies this
      ensures Matches(Wallet.Handle(old(Value()), e), r, Value())
    {
      match e
      case DepositDetected(_, _) => r := Some(Processed);
      case DepositConfirmed(dep, block, to, asset, amount) =>
        r := PostDeposit(to, asset, amount, DepositCredit, dep, block);
      case DepositReorged(dep, block, to, asset, amount, wasConfirmed) =>
        if !wasConfirmed {
          r := Some(Processed);
        } else {
          r := PostDeposit(to, asset, -amount, Reversal, dep, block);
        }
      case TxBroadcasted(t) => r := MarkBroadcasted(t);
      case TxConfirmed(t) => r := SettleTransfer(t);
      case TxFailed(t, _, _) => r := FailTransfer(t);
      case TransferRequested(_, _, _, _, _) => r := Some(Ignored);
    }

    /**
      * Dedupe row and handler in one transaction. A settlement never raises; whatever happens the
      * database stays valid, and a second dispatch of a handled event changes nothing.
      */
    method Dispatch(e: Event) returns (r: Option<Label>)
      requires Valid()
      modifies this
      ensures Valid() && Value() == Wallet.Dispatch(old(Value()), e)
      ensures r.None? ==> Value() == old(Value())
      ensures r.Some? ==> Id(e) in processed
      ensures Id(e) in old(processed) ==> r == Some(Duplicate) && Value() == old(Value())
      ensures e.TxConfirmed? || e.TxBroadcasted? ==> r.Some?
    {
      ghost var w := Value();
      if Id(e) in processed {
        return Some(Duplicate);
      }
      var saved := Value();
      processed := processed + {Id(e)};
      DispatchKeeps(w, e);
      HandlersKeepProcessed(Value(), e);
      if e.TxConfirmed? || e.TxBroadcasted? {
        SettlementHandled(w, e);
      }
      r := Handle(e);
      if r.None? {
        Restore(saved);
      }
    }

    // ---- transfers.py create, idempotency.py, routes.py ----

    method CreateTransfer(key: string, req: Request, id: TransferId) returns (r: Result)
      modifies this
      ensures match Wallet.CreateTransfer(old(Value()), key, req, id)
              case Rejected(error) => r == Refusal(error)
              case Accepted(w, t) => r == Success(t) && Value() == w
    {
      var senderKey := WalletKey(req.sender, req.network, req.asset);
      var recipientKey := WalletKey(req.recipient, req.network, req.asset);
      if req.sender == req.recipient {
        return Refusal(SameParties);
      }
      if req.sender !in directory.users || req.recipient !in directory.users {
        return Refusal(UserNotFound);
      }
      if !directory.users[req.sender] || !directory.users[req.recipient] {
        return Refusal(UserInactive);
      }
      if senderKey !in directory.wallets || recipientKey !in directory.wallets {
        return Refusal(WalletNotFound);
      }
      if !directory.wallets[senderKey].active || !directory.wallets[recipientKey].active {
        return Refusal(WalletInactive);
      }
      var a := Account(req.sender, req.asset);
      EnsureBalance(a);
      var held := PlaceHold(a, req.amount);
      if !held {
        return Refusal(InsufficientFunds);
      }
      if !Solvent(balances[a]) || req.amount <= 0 || KeyTaken(transfers, key) {
        return Refusal(AlreadyCreated);
      }
      var from, to := directory.wallets[senderKey].address, directory.wallets[recipientKey].address;
      var t := Transfer(id, key, req, from, to, Created);
      transfers := transfers + [t];
      outbox := Enqueue(outbox, Requested(t));
      r := Success(t);
    }

    /** Claim, create and complete as one transaction: the database changes exactly when a transfer is created. */
    method PostTransfer(key: string, req: Request, id: TransferId) returns (reply: Reply)
      requires Valid() && FreshId(Value(), id)
      modifies this
      ensures Valid() && (Value(), reply) == Wallet.PostTransfer(old(Value()), key, req, id)
      ensures Answered(old(Value()), key, req, id, Value(), reply)
      ensures reply.Created202? <==> Value() != old(Value())
    {
      ghost var w := Value();
      RequestKeeps(w, key, req, id);
      if key in keys {
        var row := keys[key];
        return if row.request != req then KeyReused
               else if row.status == PLACEHOLDER then KeyInProgress
               else Replayed(row);
      }
      var saved := Value();
      keys := keys[key := KeyRow(req, PLACEHOLDER, None)];
      var r := CreateTransfer(key, req, id);
      if r.Refusal? {
        Restore(saved);
        return Declined(r.error);
      }
      keys := keys[key := KeyRow(req, ACCEPTED_202, Some(r.transfer))];
      reply := Created202(r.transfer);
    }

    // ---- progress.py ----

    /** The bulk update: every CREATED transfer whose request was published moves on, no other row changes. */
    method AdvancePublished(published: set<TransferId>)
      requires Valid()
      modifies this`transfers
      ensures Valid() && Value() == Advance(old(Value()), published)
      ensures |transfers| == |old(transfers)|
      ensures forall i :: 0 <= i < |transfers| ==>
                var t := old(transfers)[i];
                transfers[i] == if t.status == Created && t.id in published then t.(status := Processing) else t
    {
      AdvanceKeepsAll(Value(), published);
      var now := transfers;
      transfers := seq(|now|, i requires 0 <= i < |now| =>
        if now[i].status.Created? && now[i].id in published then now[i].(status := Processing) else now[i]);
      assert transfers == Advance(old(Value()), published).transfers;
    }
  }

  datatype Result = Refusal(error: CreateError) | Success(transfer: Transfer)

  /** A handler either raises, or returns the label and the state of its specification. */
  predicate Matches(o: Outcome, r: Option<Label>, w: State)
  {
    match o
    case Aborted => r.None?
    case Done(w1, tag) => r == Some(tag) && w == w1
  }

  ghost predicate ValidState(w: State) { WalletOk(w) && LinkOk(w) && KeysOk(w) && RequestsKept(w) }

  lemma DispatchKeeps(w: State, e: Event)
    requires ValidState(w)
    ensures ValidState(Wallet.Dispatch(w, e))
  {
    StepKeeps(w, Deliver(e, false));
    StepKeepsLink(w, Deliver(e, false));
    StepKeepsKeys(w, Deliver(e, false));
    StepKeepsRequests(w, Deliver(e, false));
  }

  lemma SettlementHandled(w: State, e: Event)
    requires WalletOk(w) && (e.TxConfirmed? || e.TxBroadcasted?)
    ensures Wallet.Handle(w.(processed := w.processed + {Id(e)}), e).Done?
  {
    if e.TxConfirmed? {
      SettleKeeps(w.(processed := w.processed + {Id(e)}), e.transfer);
    }
  }

  lemma HandlersKeepProcessed(w: State, e: Event)
    ensures Wallet.Handle(w, e).Done? ==> Wallet.Handle(w, e).state.processed == w.processed
  {
  }

  lemma RequestKeeps(w: State, key: string, req: Request, id: TransferId)
    requires ValidState(w) && FreshId(w, id)
    ensures ValidState(Wallet.PostTransfer(w, key, req, id).0)
    ensures var (w1, reply) := Wallet.PostTransfer(w, key, req, id);
            Answered(w, key, req, id, w1, reply) && (reply.Created202? <==> w1 != w)
  {
    StepKeeps(w, Api(key, req, id));
    StepKeepsLink(w, Api(key, req, id));
    StepKeepsKeys(w, Api(key, req, id));
    StepKeepsRequests(w, Api(key, req, id));
    RequestIsAnswered(w, key, req, id);
  }

  lemma AdvanceKeepsAll(w: State, published: set<TransferId>)
    requires ValidState(w)
    ensures ValidState(Advance(w, published))
  {
    StepKeeps(w, Progress(published));
    StepKeepsLink(w, Progress(published));
    StepKeepsKeys(w, Progress(published));
    StepKeepsRequests(w, Progress(published));
  }
}
