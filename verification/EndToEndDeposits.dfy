/** From the chain to the user's ledger: what the wallet books for a deposit is what happened to it. */
module EndToEndDeposits {
  import opened Events
  import opened Sums
  import opened Ledger
  import opened ChainModel
  import opened World
  import opened WorldInvariant
  import W = Wallet
  import WP = WalletProperties
  import D = Deposits
  import DC = DepositConservation
  import O = Outgoing

  function OfDeposit(id: DepositId): Entry -> int
  {
    (e: Entry) => if e.ref.DepositReference? && e.ref.dep == id then e.amount else 0
  }

  function Value(id: DepositId, e: Event): int
  {
    if e.DepositConfirmed? && e.dep == id then e.amount
    else if e.DepositReorged? && e.dep == id && e.wasConfirmed then -e.amount
    else 0
  }

  function Applied(id: DepositId, done: set<EventId>): Event -> int
  {
    (e: Event) => if Id(e) in done then Value(id, e) else 0
  }

  /** The entry of a deposit: its event was processed, and it is on the account of the address's owner. */
  ghost predicate EntrySourced(
      e: Entry, processed: set<EventId>, owners: map<Addr, UserId>, submitted: map<TxRef, TxInfo>)
    requires e.ref.DepositReference?
  {
    && (e.kind == DepositCredit ==> ConfirmedId(e.ref.dep, e.ref.block) in processed)
    && (e.kind == Reversal ==> ReorgedId(e.ref.dep, e.ref.block) in processed)
    && e.ref.dep.tx in submitted
    && submitted[e.ref.dep.tx].recipient in owners
    && e.user == owners[submitted[e.ref.dep.tx].recipient]
    && e.asset == D.CHAIN_ASSET
  }

  ghost predicate EntriesOk(
      entries: seq<Entry>, processed: set<EventId>, owners: map<Addr, UserId>, submitted: map<TxRef, TxInfo>)
  {
    forall e :: e in entries && e.ref.DepositReference? ==> EntrySourced(e, processed, owners, submitted)
  }

  /** For every deposit the ledger holds exactly the events applied so far. */
  ghost predicate LedgerFollows(entries: seq<Entry>, log: seq<Event>, done: set<EventId>)
  {
    forall id :: Sum(entries, OfDeposit(id)) == Sum(log, Applied(id, done))
  }

  ghost predicate DepositsOk(s: State)
  {
    && EntriesOk(s.w.books.entries, s.w.processed, s.w.directory.owners, s.d.chain.submitted)
    && LedgerFollows(s.w.books.entries, s.d.log, s.w.processed - s.ignored)
    && s.ignored <= s.w.processed
  }

  /** A sum changes only by the one event that starts to count. */
  lemma {:induction false} SumOneMore(log: seq<Event>, i: nat, id: DepositId, done: set<EventId>)
    requires i < |log| && UniqueIds(log) && Id(log[i]) !in done
    ensures Sum(log, Applied(id, done + {Id(log[i])})) == Sum(log, Applied(id, done)) + Value(id, log[i])
  {
    var last := |log| - 1;
    if i < last {
      SumOneMore(log[..last], i, id, done);
      assert Id(log[last]) != Id(log[i]);
    } else {
      assert forall j :: 0 <= j < last ==> Id(log[j]) != Id(log[i]);
      SumPointwise(log[..last], Applied(id, done + {Id(log[i])}), log[..last], Applied(id, done));
    }
  }

  // ---- what a delivery does to the ledger rows of deposits ----

  /** The postings of one reference add rows of that reference only. */
  lemma {:induction false} PostAllAdds(b: Books, asset: Asset, ps: seq<Posting>, ref: Reference)
    requires forall p :: p in ps ==> p.ref == ref
    ensures var r := PostAll(b, asset, ps);
            r.Posted? ==> b.entries <= r.books.entries
                          && forall i :: |b.entries| <= i < |r.books.entries| ==> r.books.entries[i].ref == ref
    decreases |ps|
  {
    if ps != [] {
      var r := PostOne(b, asset, ps[0]);
      if r.Posted? {
        PostAllAdds(r.books, asset, ps[1..], ref);
      }
    }
  }

  lemma PairAdds(b: Books, asset: Asset, p: Posting, q: Posting)
    requires p.ref == q.ref
    ensures var r := PostEntries(b, asset, [p, q]);
            r.Posted? ==> b.entries <= r.books.entries
                          && forall i :: |b.entries| <= i < |r.books.entries| ==> r.books.entries[i].ref == p.ref
  {
    SortPair(p, q);
    PostAllAdds(b, asset, OrderedPair(p, q), p.ref);
  }

  ghost predicate OnlyTransferRows(entries: seq<Entry>, more: seq<Entry>)
  {
    entries <= more && forall i :: |entries| <= i < |more| ==> more[i].ref.TransferReference?
  }

  lemma TransferEventsAddTransferRows(w: W.State, e: Event)
    requires AboutTransfer(e) && W.Handle(w, e).Done?
    ensures OnlyTransferRows(w.books.entries, W.Handle(w, e).state.books.entries)
  {
    var f := W.Find(w.transfers, e.transfer);
    if f.Some? {
      var t := w.transfers[f.value];
      if e.TxConfirmed? && W.Open(t.status) {
        PairAdds(ReleaseHold(w.books, W.SenderAccount(t), t.req.amount).value, t.req.asset, W.Debit(t), W.Credit(t));
      } else if e.TxFailed? && t.status.Confirmed? {
        PairAdds(w.books, t.req.asset, W.Refund(t), W.Clawback(t));
      }
    }
  }

  /** New rows of transfers and ids that are not deposit facts leave the deposit ledger alone. */
  lemma UnrelatedKeepsLedger(
      entries: seq<Entry>, more: seq<Entry>, log: seq<Event>, done: set<EventId>, now: set<EventId>)
    requires LedgerFollows(entries, log, done) && OnlyTransferRows(entries, more)
    requires forall e :: e in log ==> (Id(e) in now <==> Id(e) in done)
    ensures LedgerFollows(more, log, now)
  {
    forall id ensures Sum(more, OfDeposit(id)) == Sum(log, Applied(id, now)) {
      SumIgnoresZeros(entries, more, OfDeposit(id));
      SumPointwise(log, Applied(id, now), log, Applied(id, done));
    }
  }

  /** One more applied fact, and its row. */
  lemma FactKeepsLedger(entries: seq<Entry>, added: seq<Entry>, log: seq<Event>, done: set<EventId>, e: Event)
    requires LedgerFollows(entries, log, done) && UniqueIds(log) && e in log && Id(e) !in done
    requires |added| <= 1
    requires forall id :: Value(id, e) == if added == [] then 0 else OfDeposit(id)(added[0])
    ensures LedgerFollows(entries + added, log, done + {Id(e)})
  {
    var i :| 0 <= i < |log| && log[i] == e;
    forall id ensures Sum(entries + added, OfDeposit(id)) == Sum(log, Applied(id, done + {Id(e)})) {
      SumOneMore(log, i, id, done);
      if added == [] {
        assert entries + added == entries;
      } else {
        assert added == [added[0]];
        SumAppend(entries, added[0], OfDeposit(id));
      }
      assert Value(id, e) == if added == [] then 0 else OfDeposit(id)(added[0]);
    }
  }

  function DepositEntry(w: W.State, to: Addr, amount: int, kind: EntryKind, dep: DepositId, block: Hash): Entry
    requires to in w.directory.owners
  {
    Entry(w.directory.owners[to], D.CHAIN_ASSET, amount, kind, DepositReference(dep, block))
  }

  /** What the posting of a deposit does when its event is new. */
  lemma PostDepositExplicit(w: W.State, to: Addr, amount: int, kind: EntryKind, dep: DepositId, block: Hash)
    requires to in w.directory.owners && amount != 0
    requires !HasKey(w.books.entries, Key(w.directory.owners[to], kind, DepositReference(dep, block)))
    ensures var o := W.PostDeposit(w, to, D.CHAIN_ASSET, amount, kind, dep, block);
            o.Done? ==> !o.tag.Ignored?
                        && o.state == w.(books := o.state.books)
                        && o.state.books.entries == w.books.entries + [DepositEntry(w, to, amount, kind, dep, block)]
  {
    PostSingle(w.books, D.CHAIN_ASSET, Posting(w.directory.owners[to], amount, kind, DepositReference(dep, block)));
  }

  // ---- deliveries ----

  ghost predicate Fact(e: Event) { e.DepositConfirmed? || (e.DepositReorged? && e.wasConfirmed) }

  function KindOf(e: Event): EntryKind { if e.DepositConfirmed? then DepositCredit else Reversal }

  function SignedAmount(e: Event): int
    requires e.DepositConfirmed? || e.DepositReorged?
  {
    if e.DepositConfirmed? then e.amount else -e.amount
  }

  /** The event of a fact names its deposit's recipient, the chain's asset and a positive amount. */
  lemma FactTerms(d: D.State, e: Event)
    requires DC.Inv(d) && e in d.log && Fact(e)
    ensures e.dep.tx in d.chain.submitted && e.to == d.chain.submitted[e.dep.tx].recipient
    ensures e.asset == D.CHAIN_ASSET && e.amount > 0
  {
    assert DC.EventOk(d, e);
    assert DC.RowOk(d.chain, e.dep, d.rows[e.dep]);
  }

  /** An unprocessed fact has no row yet. */
  lemma NoRowYet(
      entries: seq<Entry>, processed: set<EventId>, owners: map<Addr, UserId>, submitted: map<TxRef, TxInfo>, e: Event,
      user: UserId)
    requires EntriesOk(entries, processed, owners, submitted) && Fact(e) && Id(e) !in processed
    ensures !HasKey(entries, Key(user, KindOf(e), DepositReference(e.dep, e.block)))
  {
    forall x | x in entries ensures KeyOf(x) != Key(user, KindOf(e), DepositReference(e.dep, e.block)) {
      if x.ref == DepositReference(e.dep, e.block) {
        assert EntrySourced(x, processed, owners, submitted);
      }
    }
  }

  lemma FactDelivered(s: State, e: Event)
    requires Inv(s) && DepositsOk(s) && e in s.d.log && Fact(e) && Id(e) !in s.w.processed
    requires e.to in s.w.directory.owners
    ensures var o := W.Handle(s.w.(processed := s.w.processed + {Id(e)}), e);
            o.Done? ==> !o.tag.Ignored? && DepositsOk(s.(w := o.state))
  {
    var marked := s.w.(processed := s.w.processed + {Id(e)});
    var owners, submitted := s.w.directory.owners, s.d.chain.submitted;
    var user := owners[e.to];
    FactTerms(s.d, e);
    NoRowYet(s.w.books.entries, s.w.processed, owners, submitted, e, user);
    PostDepositExplicit(marked, e.to, SignedAmount(e), KindOf(e), e.dep, e.block);
    var added := Entry(user, D.CHAIN_ASSET, SignedAmount(e), KindOf(e), DepositReference(e.dep, e.block));
    EntriesGrow(s.w.books.entries, added, s.w.processed, Id(e), owners, submitted);
    FactKeepsLedger(s.w.books.entries, [added], s.d.log, s.w.processed - s.ignored, e);
    assert s.w.processed - s.ignored + {Id(e)} == marked.processed - s.ignored;
  }

  lemma EntriesGrow(
      entries: seq<Entry>, added: Entry, processed: set<EventId>, id: EventId, owners: map<Addr, UserId>,
      submitted: map<TxRef, TxInfo>)
    requires EntriesOk(entries, processed, owners, submitted)
    requires added.ref.DepositReference? ==> EntrySourced(added, processed + {id}, owners, submitted)
    ensures EntriesOk(entries + [added], processed + {id}, owners, submitted)
  {
    forall e | e in entries + [added] && e.ref.DepositReference?
      ensures EntrySourced(e, processed + {id}, owners, submitted)
    {
      if e in entries {
        assert EntrySourced(e, processed, owners, submitted);
      }
    }
  }

  lemma EntriesSurvive(
      entries: seq<Entry>, more: seq<Entry>, processed: set<EventId>, now: set<EventId>, owners: map<Addr, UserId>,
      wider: map<Addr, UserId>, submitted: map<TxRef, TxInfo>, later: map<TxRef, TxInfo>)
    requires EntriesOk(entries, processed, owners, submitted) && OnlyTransferRows(entries, more)
    requires processed <= now
    requires forall a :: a in owners ==> a in wider && wider[a] == owners[a]
    requires forall tx :: tx in submitted ==> tx in later && later[tx] == submitted[tx]
    ensures EntriesOk(more, now, wider, later)
  {
    forall e | e in more && e.ref.DepositReference? ensures EntrySourced(e, now, wider, later) {
      var i :| 0 <= i < |more| && more[i] == e;
      assert i < |entries| && entries[i] in entries;
      assert EntrySourced(entries[i], processed, owners, submitted);
    }
  }

  /** A notice without a posting: detected, withdrawn before confirmation, or for an address without a wallet. */
  lemma NoticeDelivered(s: State, e: Event)
    requires Inv(s) && DepositsOk(s) && e in s.d.log && Id(e) !in s.w.processed
    requires Fact(e) ==> e.to !in s.w.directory.owners
    ensures var o := W.Handle(s.w.(processed := s.w.processed + {Id(e)}), e);
            && o.Done?
            && DepositsOk(s.(w := o.state, ignored := if o.tag.Ignored? then s.ignored + {Id(e)} else s.ignored))
  {
    assert DC.EventOk(s.d, e);
    var marked := s.w.(processed := s.w.processed + {Id(e)});
    var done := s.w.processed - s.ignored;
    EntriesSurvive(s.w.books.entries, s.w.books.entries, s.w.processed, marked.processed,
                   s.w.directory.owners, s.w.directory.owners, s.d.chain.submitted, s.d.chain.submitted);
    if Fact(e) {
      assert marked.processed - (s.ignored + {Id(e)}) == done;
    } else {
      FactKeepsLedger(s.w.books.entries, [], s.d.log, done, e);
      assert s.w.books.entries + [] == s.w.books.entries;
      assert marked.processed - s.ignored == done + {Id(e)};
    }
  }

  lemma TransferDelivered(s: State, e: Event)
    requires Inv(s) && DepositsOk(s) && e in s.o.log && Id(e) !in s.w.processed
    ensures var o := W.Handle(s.w.(processed := s.w.processed + {Id(e)}), e);
            o.Done? ==>
              DepositsOk(s.(w := o.state, ignored := if o.tag.Ignored? then s.ignored + {Id(e)} else s.ignored))
  {
    var marked := s.w.(processed := s.w.processed + {Id(e)});
    var o := W.Handle(marked, e);
    if o.Done? {
      var ignored := if o.tag.Ignored? then s.ignored + {Id(e)} else s.ignored;
      HandlersEmitNothing(marked, e);
      TransferEventsAddTransferRows(marked, e);
      WP.HandleGrows(marked, e);
      EntriesSurvive(s.w.books.entries, o.state.books.entries, s.w.processed, marked.processed,
                     s.w.directory.owners, o.state.directory.owners, s.d.chain.submitted, s.d.chain.submitted);
      DepositIds(s.d, e);
      UnrelatedKeepsLedger(s.w.books.entries, o.state.books.entries, s.d.log,
                           s.w.processed - s.ignored, marked.processed - ignored);
    }
  }

  lemma DepositIds(d: D.State, e: Event)
    requires DC.Inv(d) && AboutTransfer(e)
    ensures forall x :: x in d.log ==> Id(x) != Id(e)
  {
    forall x | x in d.log ensures Id(x) != Id(e) {
      assert DC.EventOk(d, x);
    }
  }

  lemma DeliverKeeps(s: State, cfg: Settings, e: Event, crashed: bool)
    requires Inv(s) && DepositsOk(s) && Enabled(s, cfg, Deliver(e, crashed))
    ensures DepositsOk(Next(s, cfg, Deliver(e, crashed)))
  {
    if !crashed && Id(e) !in s.w.processed {
      if e in s.o.log {
        TransferDelivered(s, e);
      } else if Fact(e) && e.to in s.w.directory.owners {
        FactDelivered(s, e);
      } else {
        NoticeDelivered(s, e);
      }
    }
  }

  // ---- the other steps ----

  lemma WalletStepKeeps(s: State, ws: W.Step)
    requires DepositsOk(s) && !ws.Deliver?
    ensures DepositsOk(s.(w := W.Apply(s.w, ws)))
  {
    var w1 := W.Apply(s.w, ws);
    WP.StepGrows(s.w, ws);
    assert w1.books.entries == s.w.books.entries && w1.processed == s.w.processed;
    EntriesSurvive(s.w.books.entries, w1.books.entries, s.w.processed, w1.processed,
                   s.w.directory.owners, w1.directory.owners, s.d.chain.submitted, s.d.chain.submitted);
  }

  /** Facts emitted later are not applied yet, so the ledger still follows the longer log. */
  lemma LongerLog(s: State, log: seq<Event>)
    requires Inv(s) && DepositsOk(s) && s.d.log <= log && UniqueIds(log)
    requires forall e :: e in log ==> !AboutTransfer(e)
    ensures LedgerFollows(s.w.books.entries, log, s.w.processed - s.ignored)
  {
    var done := s.w.processed - s.ignored;
    forall i | |s.d.log| <= i < |log| ensures Id(log[i]) !in done {
      NotProcessedYet(s, log, i);
    }
    forall id ensures Sum(s.w.books.entries, OfDeposit(id)) == Sum(log, Applied(id, done)) {
      SumIgnoresZeros(s.d.log, log, Applied(id, done));
    }
  }

  lemma NotProcessedYet(s: State, log: seq<Event>, i: nat)
    requires Sourced(s.w.processed, s.d.log, s.o.log) && OutgoingLogOk(s.o.log, s.o.rows)
    requires s.d.log <= log && UniqueIds(log) && |s.d.log| <= i < |log| && !AboutTransfer(log[i])
    ensures Id(log[i]) !in s.w.processed
  {
    forall x | x in s.d.log ensures Id(x) != Id(log[i]) {
      var j :| 0 <= j < |s.d.log| && s.d.log[j] == x;
      assert log[j] == x;
    }
    forall x | x in s.o.log ensures Id(x) != Id(log[i]) {
    }
  }

  lemma SubmittedStays(d: D.State, cfg: D.Settings, ds: D.Step)
    requires D.Enabled(d, cfg, ds)
    ensures var more := D.Next(d, cfg, ds).chain.submitted;
            forall tx :: tx in d.chain.submitted ==> tx in more && more[tx] == d.chain.submitted[tx]
  {
    if !ds.ChainStep? {
      SameChain(d, cfg, ds);
    }
  }

  lemma DepositStepKeeps(s: State, cfg: Settings, ds: D.Step)
    requires Inv(s) && DepositsOk(s) && Enabled(s, cfg, DepositStep(ds))
    ensures DepositsOk(Next(s, cfg, DepositStep(ds)))
  {
    var d1 := D.Next(s.d, cfg.deposits, ds);
    DC.StepKeeps(s.d, cfg.deposits, ds);
    DepositLogGrows(s.d, cfg.deposits, ds);
    SubmittedStays(s.d, cfg.deposits, ds);
    forall e | e in d1.log ensures !AboutTransfer(e) {
      assert DC.EventOk(d1, e);
    }
    LongerLog(s, d1.log);
    EntriesSurvive(s.w.books.entries, s.w.books.entries, s.w.processed, s.w.processed,
                   s.w.directory.owners, s.w.directory.owners, s.d.chain.submitted, d1.chain.submitted);
  }

  lemma StepKeepsDeposits(s: State, cfg: Settings, step: Step)
    requires Inv(s) && DepositsOk(s) && Enabled(s, cfg, step)
    ensures DepositsOk(Next(s, cfg, step))
  {
    match step
    case WalletStep(ws) => WalletStepKeeps(s, ws);
    case Deliver(e, crashed) => DeliverKeeps(s, cfg, e, crashed);
    case DepositStep(ds) => DepositStepKeeps(s, cfg, ds);
    case OutgoingStep(_) =>
    case NodeReceives(t) =>
      var s1 := Next(s, cfg, step);
      EntriesSurvive(s.w.books.entries, s.w.books.entries, s.w.processed, s.w.processed,
                     s.w.directory.owners, s.w.directory.owners, s.d.chain.submitted, s1.d.chain.submitted);
  }

  lemma {:induction false} RunKeepsDeposits(s: State, cfg: Settings, steps: seq<Step>)
    requires Inv(s) && DepositsOk(s) && ValidRun(s, cfg, steps)
    ensures DepositsOk(Run(s, cfg, steps)) && Inv(Run(s, cfg, steps))
    decreases |steps|
  {
    if steps != [] {
      StepKeeps(s, cfg, steps[0]);
      StepKeepsDeposits(s, cfg, steps[0]);
      RunKeepsDeposits(Next(s, cfg, steps[0]), cfg, steps[1..]);
    }
  }

  // ---- the theorem ----

  /** Every confirmation and every withdrawal of a deposit was applied while its address had a wallet. */
  ghost predicate AllApplied(s: State, id: DepositId)
  {
    forall e :: e in s.d.log && Fact(e) && e.dep == id ==> Id(e) in s.w.processed - s.ignored
  }

  /** The entry is on the account of whoever owns the address the chain transaction pays. */
  ghost predicate OnOwner(s: State, e: Entry)
    requires e.ref.DepositReference?
  {
    && e.ref.dep.tx in s.d.chain.submitted
    && s.d.chain.submitted[e.ref.dep.tx].recipient in s.w.directory.owners
    && AccountOf(e) == Account(s.w.directory.owners[s.d.chain.submitted[e.ref.dep.tx].recipient], D.CHAIN_ASSET)
  }

  lemma NetCredit(s: State, id: DepositId)
    requires DC.Inv(s.d) && LedgerFollows(s.w.books.entries, s.d.log, s.w.processed - s.ignored) && AllApplied(s, id)
    ensures Sum(s.w.books.entries, OfDeposit(id)) ==
            if id in s.d.rows && s.d.rows[id].status.Confirmed? then s.d.rows[id].amount else 0
  {
    var f := Applied(id, s.w.processed - s.ignored);
    var amount := if id in s.d.rows then s.d.rows[id].amount else 0;
    forall e | e in s.d.log ensures f(e) == amount * DC.NetOf(id)(e) {
      assert DC.EventOk(s.d, e);
    }
    SumScaled(s.d.log, f, DC.NetOf(id), amount);
    assert Sum(s.d.log, DC.NetOf(id)) == DC.CreditedNow(s.d, id);
  }

  /**
    * In every run with arbitrary reorgs, re-mines, repoints, revivals, duplicate and reordered
    * deliveries and crashes: once a deposit's facts are applied, the ledger's net credit for it is its
    * amount if it is CONFIRMED and 0 otherwise, and all of it is on the owner of the receiving address.
    */
  lemma DepositConservation(cfg: Settings, steps: seq<Step>, id: DepositId)
    requires ValidRun(EMPTY, cfg, steps) && AllApplied(Run(EMPTY, cfg, steps), id)
    ensures var s := Run(EMPTY, cfg, steps);
            && Sum(s.w.books.entries, OfDeposit(id)) ==
               (if id in s.d.rows && s.d.rows[id].status.Confirmed? then s.d.rows[id].amount else 0)
            && (id in s.d.rows ==>
                  id.tx in s.d.chain.submitted && s.d.chain.submitted[id.tx].amount == s.d.rows[id].amount)
            && (forall e :: e in s.w.books.entries && e.ref.DepositReference? && e.ref.dep == id ==> OnOwner(s, e))
  {
    EmptyInv();
    RunKeepsDeposits(EMPTY, cfg, steps);
    var s := Run(EMPTY, cfg, steps);
    NetCredit(s, id);
    if id in s.d.rows {
      assert DC.RowOk(s.d.chain, id, s.d.rows[id]);
    }
    forall e | e in s.w.books.entries && e.ref.DepositReference? && e.ref.dep == id ensures OnOwner(s, e) {
      assert EntrySourced(e, s.w.processed, s.w.directory.owners, s.d.chain.submitted);
    }
  }

  /** Whatever is still undelivered, the net credit is the sum of the facts applied so far. */
  lemma PartialCredit(cfg: Settings, steps: seq<Step>, id: DepositId)
    requires ValidRun(EMPTY, cfg, steps)
    ensures var s := Run(EMPTY, cfg, steps);
            Sum(s.w.books.entries, OfDeposit(id)) == Sum(s.d.log, Applied(id, s.w.processed - s.ignored))
  {
    EmptyInv();
    RunKeepsDeposits(EMPTY, cfg, steps);
  }
}
