/** What every step of the wallet service keeps, and what no step can refuse. */
module WalletInvariant {
  import opened Events
  import opened Sums
  import opened Ledger
  import opened Wallet

  // ---- the invariant ----

  function HoldOn(a: Account): Transfer -> int
  {
    (t: Transfer) => if Open(t.status) && SenderAccount(t) == a then t.req.amount else 0
  }

  function TransferLeg(asset: Asset): Entry -> int
  {
    (e: Entry) => if e.ref.TransferReference? && e.asset == asset then e.amount else 0
  }

  function Settled(t: Transfer): seq<Entry> { PairEntries(t.req.asset, Debit(t), Credit(t)) }

  function Unwound(t: Transfer): seq<Entry> { PairEntries(t.req.asset, Refund(t), Clawback(t)) }

  /** The ledger rows of a transfer are determined by its status, except that a failure may follow a settlement. */
  ghost predicate RowsMatch(entries: seq<Entry>, t: Transfer)
  {
    var rows := Rows(entries, RefOf(t));
    match t.status
    case Confirmed => rows == Settled(t)
    case Failed => rows == [] || rows == Settled(t) + Unwound(t)
    case _ => rows == []
  }

  ghost predicate TransferOk(b: Books, t: Transfer)
  {
    && t.req.amount > 0
    && t.req.sender != t.req.recipient
    && SenderAccount(t) in b.balances
    && RecipientAccount(t) in b.balances
    && RowsMatch(b.entries, t)
  }

  ghost predicate UniqueTransfers(ts: seq<Transfer>)
  {
    forall i, j :: 0 <= i < j < |ts| ==> ts[i].id != ts[j].id
  }

  ghost predicate HoldsOk(b: Books, ts: seq<Transfer>)
  {
    forall a :: a in b.balances ==> b.balances[a].reserved == Sum(ts, HoldOn(a))
  }

  ghost predicate KnownRefs(b: Books, ts: seq<Transfer>)
  {
    forall e :: e in b.entries && e.ref.TransferReference? ==> exists t :: t in ts && t.id == e.ref.transfer
  }

  ghost predicate ZeroSum(b: Books)
  {
    forall asset :: Sum(b.entries, TransferLeg(asset)) == 0
  }

  ghost predicate WalletsOk(w: State)
  {
    forall k :: k in w.directory.wallets ==> Account(k.user, k.asset) in w.books.balances
  }

  ghost predicate WalletOk(w: State)
  {
    && BooksOk(w.books)
    && UniqueTransfers(w.transfers)
    && (forall t :: t in w.transfers ==> TransferOk(w.books, t))
    && HoldsOk(w.books, w.transfers)
    && KnownRefs(w.books, w.transfers)
    && ZeroSum(w.books)
    && WalletsOk(w)
  }

  // ---- rows of a transfer under two appends ----

  /** Appending a pair that carries one reference extends that reference's rows and no other's. */
  lemma PairRows(entries: seq<Entry>, pair: seq<Entry>, ref: Reference)
    requires |pair| == 2 && pair[0].ref == pair[1].ref
    ensures Rows(entries + pair, ref) == Rows(entries, ref) + (if pair[0].ref == ref then pair else [])
  {
    RowsAppend(entries, pair[0], ref);
    RowsAppend(entries + [pair[0]], pair[1], ref);
    assert entries + [pair[0]] + [pair[1]] == entries + pair;
    assert pair == [pair[0]] + [pair[1]];
  }

  lemma NoRowsNoKey(entries: seq<Entry>, k: Key)
    requires Rows(entries, k.ref) == []
    ensures !HasKey(entries, k)
  {
    RowsAre(entries, k.ref);
  }

  /** After a settlement the two reversal keys are still free. */
  lemma SettledHasNoReversal(entries: seq<Entry>, t: Transfer, user: UserId)
    requires Rows(entries, RefOf(t)) == Settled(t)
    ensures !HasKey(entries, Key(user, Reversal, RefOf(t)))
  {
    RowsAre(entries, RefOf(t));
    forall e | e in entries && e.ref == RefOf(t) ensures e.kind != Reversal {
      assert e in Settled(t);
    }
  }

  // ---- settle and fail on an open transfer ----

  function ReleasedBooks(b: Books, t: Transfer): Books
    requires SenderAccount(t) in b.balances
  {
    var a := SenderAccount(t);
    b.(balances := b.balances[a := b.balances[a].(reserved := b.balances[a].reserved - t.req.amount)])
  }

  function SettledBooks(b: Books, t: Transfer): Books
    requires SenderAccount(t) in b.balances && RecipientAccount(t) in b.balances
  {
    var r := ReleasedBooks(b, t);
    Books(r.entries + Settled(t), Moved(r, t.req.asset, Debit(t), Credit(t)))
  }

  function UnwoundBooks(b: Books, t: Transfer): Books
    requires SenderAccount(t) in b.balances && RecipientAccount(t) in b.balances
  {
    Books(b.entries + Unwound(t), Moved(b, t.req.asset, Refund(t), Clawback(t)))
  }

  /** The hold of an open transfer is inside the reserved amount, so it can always be released. */
  lemma HoldIsReserved(w: State, i: nat)
    requires WalletOk(w) && i < |w.transfers| && Open(w.transfers[i].status)
    ensures var t := w.transfers[i];
            && SenderAccount(t) in w.books.balances
            && t.req.amount <= w.books.balances[SenderAccount(t)].reserved
            && ReleaseHold(w.books, SenderAccount(t), t.req.amount) == Some(ReleasedBooks(w.books, t))
  {
    var t := w.transfers[i];
    assert TransferOk(w.books, t);
    SumBoundsRow(w.transfers, HoldOn(SenderAccount(t)), i);
  }

  /** No statement of a settlement can trip a CHECK: the sender's released hold covers the debit. */
  lemma SettleExplicit(w: State, id: TransferId)
    requires WalletOk(w)
    ensures match Find(w.transfers, id)
            case None => Settle(w, id) == Done(w, Ignored)
            case Some(i) =>
              var t := w.transfers[i];
              && SenderAccount(t) in w.books.balances
              && RecipientAccount(t) in w.books.balances
              && (Open(t.status) ==>
                Settle(w, id) == Done(w.(books := SettledBooks(w.books, t),
                                         transfers := WithStatus(w.transfers, i, Confirmed)), Processed))
  {
    match Find(w.transfers, id)
    case None =>
    case Some(i) =>
      var t := w.transfers[i];
      assert TransferOk(w.books, t);
      if Open(t.status) {
        HoldIsReserved(w, i);
        var r := ReleasedBooks(w.books, t);
        NoRowsNoKey(r.entries, Key(t.req.sender, TransferDebit, RefOf(t)));
        NoRowsNoKey(r.entries, Key(t.req.recipient, TransferCredit, RefOf(t)));
        PostPair(r, t.req.asset, Debit(t), Credit(t));
        assert Solvent(w.books.balances[SenderAccount(t)]);
        assert Solvent(w.books.balances[RecipientAccount(t)]);
      }
  }

  /**
    * A failure releases the hold of an open transfer without ever being refused. After a settlement
    * it is refused exactly when the recipient no longer has the amount available.
    */
  lemma FailExplicit(w: State, id: TransferId)
    requires WalletOk(w)
    ensures match Find(w.transfers, id)
            case None => FailTransfer(w, id) == Done(w, Ignored)
            case Some(i) =>
              var t := w.transfers[i];
              && SenderAccount(t) in w.books.balances
              && RecipientAccount(t) in w.books.balances
              && (Open(t.status) ==>
                FailTransfer(w, id) == Done(w.(books := ReleasedBooks(w.books, t),
                                               transfers := WithStatus(w.transfers, i, Failed)), Processed))
              && (t.status.Confirmed? ==>
                FailTransfer(w, id) ==
                if Available(w.books, RecipientAccount(t)) >= t.req.amount
                then Done(w.(books := UnwoundBooks(w.books, t),
                             transfers := WithStatus(w.transfers, i, Failed)), Processed)
                else Aborted)
  {
    match Find(w.transfers, id)
    case None =>
    case Some(i) =>
      var t := w.transfers[i];
      assert TransferOk(w.books, t);
      if Open(t.status) {
        HoldIsReserved(w, i);
      } else if t.status.Confirmed? {
        SettledHasNoReversal(w.books.entries, t, t.req.sender);
        SettledHasNoReversal(w.books.entries, t, t.req.recipient);
        PostPair(w.books, t.req.asset, Refund(t), Clawback(t));
        assert Solvent(w.books.balances[SenderAccount(t)]);
        assert Solvent(w.books.balances[RecipientAccount(t)]);
      }
  }

  /**
    * The only events a handler can abort are a reversal of a credited deposit and the failure of a
    * settled transfer, each exactly when the account that must give the money back lacks it.
    */
  lemma OnlyReversalsAbort(w: State, e: Event)
    requires WalletOk(w)
    requires e.DepositConfirmed? || e.DepositReorged? ==> e.amount > 0
    ensures Handle(w, e).Aborted? <==>
            || (e.DepositReorged? && e.wasConfirmed && e.to in w.directory.owners
                && var user := w.directory.owners[e.to];
                   && !HasKey(w.books.entries, Key(user, Reversal, DepositReference(e.dep, e.block)))
                   && Available(w.books, Account(user, e.asset)) < e.amount)
            || (e.TxFailed?
                && var f := Find(w.transfers, e.transfer);
                   && f.Some?
                   && w.transfers[f.value].status.Confirmed?
                   && Available(w.books, RecipientAccount(w.transfers[f.value])) < w.transfers[f.value].req.amount)
  {
    match e
    case TxConfirmed(id) => SettleExplicit(w, id);
    case TxFailed(id, _, _) => FailExplicit(w, id);
    case DepositConfirmed(dep, block, to, asset, amount) =>
      if to in w.directory.owners {
        var p := Posting(w.directory.owners[to], amount, DepositCredit, DepositReference(dep, block));
        PostSingle(w.books, asset, p);
        assert Account(w.directory.owners[to], asset) in w.books.balances ==>
              Solvent(w.books.balances[Account(w.directory.owners[to], asset)]);
      }
    case DepositReorged(dep, block, to, asset, amount, wasConfirmed) =>
      if wasConfirmed && to in w.directory.owners {
        PostSingle(w.books, asset, Posting(w.directory.owners[to], -amount, Reversal, DepositReference(dep, block)));
        assert Account(w.directory.owners[to], asset) in w.books.balances ==>
              Solvent(w.books.balances[Account(w.directory.owners[to], asset)]);
      }
    case _ =>
  }

  // ---- preservation: changing one transfer's status and its books together ----

  /** Two postings of a transfer that cancel, for accounts that already have balances. */
  lemma PairKeepsBooks(b: Books, asset: Asset, p: Posting, q: Posting)
    requires BooksOk(b) && p.user != q.user
    requires !HasKey(b.entries, Key(p.user, p.kind, p.ref)) && !HasKey(b.entries, Key(q.user, q.kind, q.ref))
    requires CanMove(b, Account(p.user, asset), p.amount) && CanMove(b, Account(q.user, asset), q.amount)
    ensures BooksOk(Books(b.entries + PairEntries(asset, p, q), Moved(b, asset, p, q)))
  {
    PostPair(b, asset, p, q);
    PostAllKeeps(b, asset, SortByUser([p, q]));
  }

  lemma PairKeepsZeroSum(b: Books, asset: Asset, p: Posting, q: Posting, balances: map<Account, Balance>)
    requires ZeroSum(b) && p.amount + q.amount == 0 && p.ref == q.ref
    ensures ZeroSum(Books(b.entries + PairEntries(asset, p, q), balances))
  {
    forall x ensures Sum(b.entries + PairEntries(asset, p, q), TransferLeg(x)) == 0 {
      var pair := PairEntries(asset, p, q);
      SumAppendTwo(b.entries, pair[0], pair[1], TransferLeg(x));
    }
  }

  /** A status change of transfer `i` with matching rows and reserves keeps every table consistent. */
  lemma StatusChangeKeeps(w: State, i: nat, s: Status, b: Books)
    requires WalletOk(w) && i < |w.transfers|
    requires BooksOk(b) && ZeroSum(b)
    requires b.balances.Keys == w.books.balances.Keys
    requires forall a :: a in b.balances ==>
               b.balances[a].reserved == w.books.balances[a].reserved
                 - HoldOn(a)(w.transfers[i]) + HoldOn(a)(w.transfers[i].(status := s))
    requires RowsMatch(b.entries, w.transfers[i].(status := s))
    requires forall t :: t in w.transfers && t.id != w.transfers[i].id ==> RowsMatch(b.entries, t)
    requires forall e :: e in b.entries ==> e in w.books.entries || e.ref == RefOf(w.transfers[i])
    ensures WalletOk(w.(books := b, transfers := WithStatus(w.transfers, i, s)))
  {
    var ts := WithStatus(w.transfers, i, s);
    forall a | a in b.balances ensures b.balances[a].reserved == Sum(ts, HoldOn(a)) {
      SumUpdate(w.transfers, i, w.transfers[i].(status := s), HoldOn(a));
    }
    forall t | t in ts ensures TransferOk(b, t) {
      var j :| 0 <= j < |ts| && ts[j] == t;
      assert TransferOk(w.books, w.transfers[j]);
    }
    forall e | e in b.entries && e.ref.TransferReference? ensures exists t :: t in ts && t.id == e.ref.transfer {
      SameIds(w.transfers, i, s, e);
    }
  }

  lemma SameIds(ts: seq<Transfer>, i: nat, s: Status, e: Entry)
    requires i < |ts| && e.ref.TransferReference?
    requires e.ref == RefOf(ts[i]) || exists t :: t in ts && t.id == e.ref.transfer
    ensures exists t :: t in WithStatus(ts, i, s) && t.id == e.ref.transfer
  {
    var j :| 0 <= j < |ts| && ts[j].id == e.ref.transfer;
    assert WithStatus(ts, i, s)[j] in WithStatus(ts, i, s);
  }

  /** Writing a pair of entries for transfer `i` together with its new status. */
  lemma PairStatusKeeps(w: State, i: nat, s: Status, b: Books, pair: seq<Entry>)
    requires WalletOk(w) && i < |w.transfers|
    requires BooksOk(b) && ZeroSum(b)
    requires b.entries == w.books.entries + pair
    requires |pair| == 2 && pair[0].ref == pair[1].ref == RefOf(w.transfers[i])
    requires b.balances.Keys == w.books.balances.Keys
    requires forall a :: a in b.balances ==>
               b.balances[a].reserved == w.books.balances[a].reserved
                 - HoldOn(a)(w.transfers[i]) + HoldOn(a)(w.transfers[i].(status := s))
    requires s.Confirmed? ==> Rows(w.books.entries, RefOf(w.transfers[i])) == [] && pair == Settled(w.transfers[i])
    requires s.Failed? ==>
               && Rows(w.books.entries, RefOf(w.transfers[i])) == Settled(w.transfers[i])
               && pair == Unwound(w.transfers[i])
    requires s.Confirmed? || s.Failed?
    ensures WalletOk(w.(books := b, transfers := WithStatus(w.transfers, i, s)))
  {
    OthersKeepRows(w, i, pair);
    RowsAfterPair(w.books.entries, w.transfers[i], s, pair);
    PairMembers(w.books.entries, pair, RefOf(w.transfers[i]));
    StatusChangeKeeps(w, i, s, b);
  }

  lemma PairMembers(entries: seq<Entry>, pair: seq<Entry>, ref: Reference)
    requires |pair| == 2 && pair[0].ref == pair[1].ref == ref
    ensures forall e :: e in entries + pair ==> e in entries || e.ref == ref
  {
    forall e | e in entries + pair ensures e in entries || e.ref == ref {
      var k :| 0 <= k < |entries + pair| && (entries + pair)[k] == e;
      if k >= |entries| {
        assert e == pair[k - |entries|];
      }
    }
  }

  lemma RowsAfterPair(entries: seq<Entry>, t: Transfer, s: Status, pair: seq<Entry>)
    requires |pair| == 2 && pair[0].ref == pair[1].ref == RefOf(t)
    requires s.Confirmed? ==> Rows(entries, RefOf(t)) == [] && pair == Settled(t)
    requires s.Failed? ==> Rows(entries, RefOf(t)) == Settled(t) && pair == Unwound(t)
    requires s.Confirmed? || s.Failed?
    ensures RowsMatch(entries + pair, t.(status := s))
  {
    PairRows(entries, pair, RefOf(t));
    assert [] + pair == pair;
    RowsDecide(Rows(entries + pair, RefOf(t)), entries + pair, t, s);
  }

  lemma RowsDecide(rows: seq<Entry>, entries: seq<Entry>, t: Transfer, s: Status)
    requires rows == Rows(entries, RefOf(t))
    requires (s.Confirmed? && rows == Settled(t)) || (s.Failed? && rows == Settled(t) + Unwound(t))
    ensures RowsMatch(entries, t.(status := s))
  {
  }

  lemma SettleKeeps(w: State, id: TransferId)
    requires WalletOk(w)
    ensures Settle(w, id).Done? && WalletOk(Settle(w, id).state)
  {
    SettleExplicit(w, id);
    var f := Find(w.transfers, id);
    if f.Some? && Open(w.transfers[f.value].status) {
      SettleOpenKeeps(w, f.value);
    }
  }

  lemma SettleOpenKeeps(w: State, i: nat)
    requires WalletOk(w) && i < |w.transfers| && Open(w.transfers[i].status)
    requires SenderAccount(w.transfers[i]) in w.books.balances && RecipientAccount(w.transfers[i]) in w.books.balances
    ensures WalletOk(w.(books := SettledBooks(w.books, w.transfers[i]),
                        transfers := WithStatus(w.transfers, i, Confirmed)))
  {
    var t := w.transfers[i];
    var b := SettledBooks(w.books, t);
    assert TransferOk(w.books, t);
    SettledBooksOk(w, i);
    SettledReserves(w.books, t);
    PairStatusKeeps(w, i, Confirmed, b, Settled(t));
  }

  lemma SettledReserves(b: Books, t: Transfer)
    requires SenderAccount(t) in b.balances && RecipientAccount(t) in b.balances && t.req.sender != t.req.recipient
    requires Open(t.status)
    ensures var b1 := SettledBooks(b, t);
            && b1.balances.Keys == b.balances.Keys
            && forall a :: a in b1.balances ==>
                 b1.balances[a].reserved == b.balances[a].reserved - HoldOn(a)(t) + HoldOn(a)(t.(status := Confirmed))
  {
  }

  lemma SettledBooksOk(w: State, i: nat)
    requires WalletOk(w) && i < |w.transfers| && Open(w.transfers[i].status)
    requires TransferOk(w.books, w.transfers[i])
    ensures BooksOk(SettledBooks(w.books, w.transfers[i])) && ZeroSum(SettledBooks(w.books, w.transfers[i]))
  {
    var t := w.transfers[i];
    HoldIsReserved(w, i);
    var r := ReleasedBooks(w.books, t);
    assert BooksOk(r);
    NoRowsNoKey(r.entries, Key(t.req.sender, TransferDebit, RefOf(t)));
    NoRowsNoKey(r.entries, Key(t.req.recipient, TransferCredit, RefOf(t)));
    PairKeepsBooks(r, t.req.asset, Debit(t), Credit(t));
    PairKeepsZeroSum(r, t.req.asset, Debit(t), Credit(t), Moved(r, t.req.asset, Debit(t), Credit(t)));
  }

  /** A pair for transfer `i` leaves the rows of every other transfer alone. */
  lemma OthersKeepRows(w: State, i: nat, pair: seq<Entry>)
    requires WalletOk(w) && i < |w.transfers|
    requires |pair| == 2 && pair[0].ref == pair[1].ref == RefOf(w.transfers[i])
    ensures forall u :: u in w.transfers && u.id != w.transfers[i].id ==> RowsMatch(w.books.entries + pair, u)
  {
    forall u | u in w.transfers && u.id != w.transfers[i].id ensures RowsMatch(w.books.entries + pair, u) {
      assert TransferOk(w.books, u);
      PairRows(w.books.entries, pair, RefOf(u));
    }
  }

  lemma FailKeeps(w: State, id: TransferId)
    requires WalletOk(w)
    ensures FailTransfer(w, id).Done? ==> WalletOk(FailTransfer(w, id).state)
  {
    FailExplicit(w, id);
    var f := Find(w.transfers, id);
    if f.Some? && FailTransfer(w, id).Done? {
      if Open(w.transfers[f.value].status) {
        HoldIsReserved(w, f.value);
        OpenFailKeeps(w, f.value);
      } else if w.transfers[f.value].status.Confirmed? {
        UnwindKeeps(w, f.value);
      }
    }
  }

  lemma UnwindKeeps(w: State, i: nat)
    requires WalletOk(w) && i < |w.transfers| && w.transfers[i].status.Confirmed?
    requires SenderAccount(w.transfers[i]) in w.books.balances && RecipientAccount(w.transfers[i]) in w.books.balances
    requires Available(w.books, RecipientAccount(w.transfers[i])) >= w.transfers[i].req.amount
    ensures WalletOk(w.(books := UnwoundBooks(w.books, w.transfers[i]),
                        transfers := WithStatus(w.transfers, i, Failed)))
  {
    var t := w.transfers[i];
    var b := UnwoundBooks(w.books, t);
    assert TransferOk(w.books, t);
    UnwoundBooksOk(w, i);
    PairStatusKeeps(w, i, Failed, b, Unwound(t));
  }

  lemma UnwoundBooksOk(w: State, i: nat)
    requires WalletOk(w) && i < |w.transfers| && w.transfers[i].status.Confirmed?
    requires TransferOk(w.books, w.transfers[i])
    requires Available(w.books, RecipientAccount(w.transfers[i])) >= w.transfers[i].req.amount
    ensures BooksOk(UnwoundBooks(w.books, w.transfers[i])) && ZeroSum(UnwoundBooks(w.books, w.transfers[i]))
  {
    var t := w.transfers[i];
    SettledHasNoReversal(w.books.entries, t, t.req.sender);
    SettledHasNoReversal(w.books.entries, t, t.req.recipient);
    assert Solvent(w.books.balances[SenderAccount(t)]);
    assert Solvent(w.books.balances[RecipientAccount(t)]);
    PairKeepsBooks(w.books, t.req.asset, Refund(t), Clawback(t));
    PairKeepsZeroSum(w.books, t.req.asset, Refund(t), Clawback(t), Moved(w.books, t.req.asset, Refund(t), Clawback(t)));
  }

  lemma OpenFailKeeps(w: State, i: nat)
    requires WalletOk(w) && i < |w.transfers| && Open(w.transfers[i].status)
    requires SenderAccount(w.transfers[i]) in w.books.balances
    requires w.transfers[i].req.amount <= w.books.balances[SenderAccount(w.transfers[i])].reserved
    ensures WalletOk(w.(books := ReleasedBooks(w.books, w.transfers[i]),
                        transfers := WithStatus(w.transfers, i, Failed)))
  {
    var t := w.transfers[i];
    assert TransferOk(w.books, t);
    var b := ReleasedBooks(w.books, t);
    forall u | u in w.transfers ensures RowsMatch(b.entries, u) {
      assert TransferOk(w.books, u);
    }
    assert BooksOk(b);
    StatusChangeKeeps(w, i, Failed, b);
  }

  lemma BroadcastKeeps(w: State, id: TransferId)
    requires WalletOk(w)
    ensures MarkBroadcasted(w, id).Done? && WalletOk(MarkBroadcasted(w, id).state)
  {
    var f := Find(w.transfers, id);
    if f.Some? && Open(w.transfers[f.value].status) {
      forall u | u in w.transfers ensures RowsMatch(w.books.entries, u) {
        assert TransferOk(w.books, u);
      }
      assert w.transfers[f.value] in w.transfers;
      StatusChangeKeeps(w, f.value, Broadcast, w.books);
      assert w.(books := w.books, transfers := WithStatus(w.transfers, f.value, Broadcast))
          == w.(transfers := WithStatus(w.transfers, f.value, Broadcast));
    }
  }

  // ---- preservation: a deposit posting ----

  lemma DepositPostKeeps(w: State, asset: Asset, p: Posting)
    requires WalletOk(w) && p.ref.DepositReference?
    ensures var r := PostOne(w.books, asset, p); r.Posted? ==> WalletOk(w.(books := r.books))
  {
    var r := PostOne(w.books, asset, p);
    PostOneKeeps(w.books, asset, p);
    if r.Posted? {
      var b := r.books;
      assert b.entries == w.books.entries || b.entries == w.books.entries + [EntryFor(asset, p)];
      forall t | t in w.transfers ensures TransferOk(b, t) {
        assert TransferOk(w.books, t);
        RowsAppend(w.books.entries, EntryFor(asset, p), RefOf(t));
      }
      forall x ensures Sum(b.entries, TransferLeg(x)) == 0 {
        SumAppend(w.books.entries, EntryFor(asset, p), TransferLeg(x));
      }
      NewAccountHolds(w, b, Account(p.user, asset));
    }
  }

  /** A balance row created on demand starts with no hold, and no open transfer holds on it. */
  lemma NewAccountHolds(w: State, b: Books, added: Account)
    requires WalletOk(w)
    requires forall a :: a in b.balances <==> a in w.books.balances || a == added
    requires forall a :: a in b.balances ==>
               b.balances[a].reserved == if a in w.books.balances then w.books.balances[a].reserved else 0
    ensures HoldsOk(b, w.transfers)
  {
    forall a | a in b.balances ensures b.balances[a].reserved == Sum(w.transfers, HoldOn(a)) {
      if a !in w.books.balances {
        forall t | t in w.transfers ensures HoldOn(a)(t) == 0 {
          assert TransferOk(w.books, t);
        }
        SumOfZeros(w.transfers, HoldOn(a));
      }
    }
  }

  lemma PostDepositKeeps(w: State, to: Addr, asset: Asset, amount: int, kind: EntryKind, dep: DepositId, block: Hash)
    requires WalletOk(w)
    ensures var o := PostDeposit(w, to, asset, amount, kind, dep, block); o.Done? ==> WalletOk(o.state)
  {
    if to in w.directory.owners {
      var p := Posting(w.directory.owners[to], amount, kind, DepositReference(dep, block));
      PostSingle(w.books, asset, p);
      DepositPostKeeps(w, asset, p);
    }
  }

  // ---- preservation: creation, progress, wallets ----

  lemma CreateKeeps(w: State, key: string, req: Request, id: TransferId)
    requires WalletOk(w) && (forall t :: t in w.transfers ==> t.id != id)
    ensures var r := CreateTransfer(w, key, req, id); r.Accepted? ==> WalletOk(r.state)
  {
    var r := CreateTransfer(w, key, req, id);
    if r.Accepted? {
      var t := r.transfer;
      var a := Account(req.sender, req.asset);
      assert a in w.books.balances;
      assert RecipientAccount(t) in w.books.balances;
      var b := r.state.books;
      NewHoldCounts(w, t, b);
      NoRowsOfUnknown(w.books.entries, TransferReference(id));
      TransfersStayOk(w, t, b);
      KnownRefsGrow(w, t, b);
    }
  }

  lemma NewHoldCounts(w: State, t: Transfer, b: Books)
    requires HoldsOk(w.books, w.transfers) && b.balances.Keys == w.books.balances.Keys && t.status == Created
    requires forall x :: x in b.balances ==>
               b.balances[x].reserved ==
               w.books.balances[x].reserved + if x == SenderAccount(t) then t.req.amount else 0
    ensures HoldsOk(b, w.transfers + [t])
  {
    forall x | x in b.balances ensures b.balances[x].reserved == Sum(w.transfers + [t], HoldOn(x)) {
      SumAppend(w.transfers, t, HoldOn(x));
    }
  }

  lemma TransfersStayOk(w: State, t: Transfer, b: Books)
    requires (forall u :: u in w.transfers ==> TransferOk(w.books, u)) && TransferOk(b, t)
    requires b.entries == w.books.entries && b.balances.Keys == w.books.balances.Keys
    ensures forall u :: u in w.transfers + [t] ==> TransferOk(b, u)
  {
    forall u | u in w.transfers + [t] ensures TransferOk(b, u) {
      if u != t {
        assert TransferOk(w.books, u);
      }
    }
  }

  lemma KnownRefsGrow(w: State, t: Transfer, b: Books)
    requires KnownRefs(w.books, w.transfers) && b.entries == w.books.entries
    ensures KnownRefs(b, w.transfers + [t])
  {
    forall e | e in b.entries && e.ref.TransferReference?
      ensures exists u :: u in w.transfers + [t] && u.id == e.ref.transfer
    {
      var u :| u in w.transfers && u.id == e.ref.transfer;
      assert u in w.transfers + [t];
    }
  }

  lemma {:induction false} NoRowsOfUnknown(entries: seq<Entry>, ref: Reference)
    requires forall e :: e in entries ==> e.ref != ref
    ensures Rows(entries, ref) == []
  {
    if entries != [] {
      NoRowsOfUnknown(entries[..|entries| - 1], ref);
    }
  }

  lemma AdvanceKeeps(w: State, published: set<TransferId>)
    requires WalletOk(w)
    ensures WalletOk(Advance(w, published))
  {
    var ts := Advance(w, published).transfers;
    forall a | a in w.books.balances ensures w.books.balances[a].reserved == Sum(ts, HoldOn(a)) {
      SumPointwise(w.transfers, HoldOn(a), ts, HoldOn(a));
    }
    forall t | t in ts ensures TransferOk(w.books, t) {
      var j :| 0 <= j < |ts| && ts[j] == t;
      assert TransferOk(w.books, w.transfers[j]);
    }
    forall e | e in w.books.entries && e.ref.TransferReference? ensures exists t :: t in ts && t.id == e.ref.transfer {
      var j :| 0 <= j < |w.transfers| && w.transfers[j].id == e.ref.transfer;
      assert ts[j] in ts;
    }
  }

  lemma AttachKeeps(w: State, k: WalletKey, address: Addr)
    requires WalletOk(w)
    ensures WalletOk(Attach(w, k, address))
  {
    var a := Account(k.user, k.asset);
    WithBalanceKeeps(w.books, a);
    NewAccountHolds(w, WithBalance(w.books, a), a);
    forall t | t in w.transfers ensures TransferOk(WithBalance(w.books, a), t) {
      assert TransferOk(w.books, t);
    }
  }

  // ---- every step, every run ----

  lemma HandleKeeps(w: State, e: Event)
    requires WalletOk(w)
    ensures Handle(w, e).Done? ==> WalletOk(Handle(w, e).state)
  {
    match e
    case DepositConfirmed(dep, block, to, asset, amount) =>
          PostDepositKeeps(w, to, asset, amount, DepositCredit, dep, block);
    case DepositReorged(dep, block, to, asset, amount, wasConfirmed) =>
      PostDepositKeeps(w, to, asset, -amount, Reversal, dep, block);
    case TxBroadcasted(t) => BroadcastKeeps(w, t);
    case TxConfirmed(t) => SettleKeeps(w, t);
    case TxFailed(t, _, _) => FailKeeps(w, t);
    case _ =>
  }

  lemma StepKeeps(w: State, s: Step)
    requires WalletOk(w) && Enabled(w, s)
    ensures WalletOk(Apply(w, s))
  {
    match s
    case Api(key, req, id) =>
      if key !in w.keys {
        CreateKeeps(Claim(w, key, req), key, req, id);
      }
    case Deliver(e, crashed) =>
      HandleKeeps(w.(processed := w.processed + {Id(e)}), e);
    case Progress(published) => AdvanceKeeps(w, published);
    case AttachWallet(k, address) => AttachKeeps(w, k, address);
    case SetUser(_, _) =>
  }

  /** Ledger invariant over all runs, from any consistent state (the empty one included). */
  lemma {:induction false} RunKeeps(w: State, steps: seq<Step>)
    requires WalletOk(w) && ValidRun(w, steps)
    ensures WalletOk(Run(w, steps))
    decreases |steps|
  {
    if steps != [] {
      StepKeeps(w, steps[0]);
      RunKeeps(Apply(w, steps[0]), steps[1..]);
    }
  }

  lemma EmptyOk()
    ensures WalletOk(EMPTY)
  {
  }
}
