/** End-to-end theorems about the two services and the chain together. */
module WorldProperties {
  import opened Events
  import opened Sums
  import opened ChainModel
  import opened World
  import opened WorldInvariant
  import W = Wallet
  import WP = WalletProperties
  import R = Requests
  import D = Deposits
  import DC = DepositConservation
  import O = Outgoing

  // ---- cross-service agreement ----

  /** Every event emitted about a transfer has been applied by the wallet. */
  ghost predicate CaughtUp(s: State, t: TransferId)
  {
    forall e :: e in s.o.log && AboutTransfer(e) && e.transfer == t ==> Id(e) in s.w.processed
  }

  /** Once caught up, what the wallet has seen of a transfer is what was emitted about it. */
  lemma SeenIsEmitted(s: State, t: TransferId)
    requires Sourced(s.w.processed, s.d.log, s.o.log) && NotAboutTransfers(s.d.log) && CaughtUp(s, t)
    ensures WP.FailSeen(s.w.processed, t) <==> O.Failures(s.o, t) > 0
    ensures WP.ConfirmSeen(s.w.processed, t) <==> O.Confirms(s.o, t) > 0
  {
    FailureCounted(s.o.log, t);
    O.NoneEmitted(s.o.log, t);
    if WP.FailSeen(s.w.processed, t) {
      var code :| TxFailedId(t, code) in s.w.processed;
      FromOutgoing(s, TxFailedId(t, code), t);
    }
    if WP.ConfirmSeen(s.w.processed, t) {
      FromOutgoing(s, TxConfirmedId(t), t);
    }
  }

  ghost predicate NotAboutTransfers(log: seq<Event>)
  {
    forall e, t :: e in log ==> !W.Mentions(Id(e), t)
  }

  lemma DepositLogNotAboutTransfers(d: D.State)
    requires DC.Inv(d)
    ensures NotAboutTransfers(d.log)
  {
    forall e, t | e in d.log ensures !W.Mentions(Id(e), t) {
      assert DC.EventOk(d, e);
    }
  }

  /** An event about a transfer can only come from the outgoing side. */
  lemma FromOutgoing(s: State, id: EventId, t: TransferId)
    requires Sourced(s.w.processed, s.d.log, s.o.log) && NotAboutTransfers(s.d.log)
    requires id in s.w.processed && W.Mentions(id, t)
    ensures Emitted(s.o.log, id)
  {
  }

  lemma {:induction false} FailureCounted(log: seq<Event>, t: TransferId)
    ensures Sum(log, O.FailuresOf(t)) > 0 ==> exists code, flag :: TxFailed(t, code, flag) in log
    ensures Sum(log, O.ConfirmsOf(t)) > 0 ==> TxConfirmed(t) in log
  {
    if log != [] {
      var last := log[|log| - 1];
      FailureCounted(log[..|log| - 1], t);
      if last.TxFailed? && last.transfer == t {
        assert TxFailed(t, last.code, last.wasConfirmed) in log;
      }
    }
  }

  predicate Agrees(t: W.Transfer, rows: map<TransferId, O.Row>)
  {
    && (t.status.Confirmed? <==> t.id in rows && rows[t.id].status.Confirmed?)
    && (t.status.Failed? <==> t.id in rows && O.Terminal(rows[t.id].status))
    && (W.Open(t.status) <==> t.id !in rows || !(rows[t.id].status.Confirmed? || O.Terminal(rows[t.id].status)))
  }

  /**
    * With one broadcaster and one watcher, in every run: once the events emitted about a transfer
    * are applied, the wallet shows CONFIRMED iff the outgoing row is CONFIRMED, FAILED iff the row is
    * FAILED or REORGED, and an open status otherwise (no row yet included).
    */
  lemma CrossServiceAgreement(cfg: Settings, steps: seq<Step>, t: W.Transfer)
    requires ValidRun(EMPTY, cfg, steps)
    requires var s := Run(EMPTY, cfg, steps); t in s.w.transfers && CaughtUp(s, t.id)
    ensures Agrees(t, Run(EMPTY, cfg, steps).o.rows)
  {
    EmptyInv();
    RunKeeps(EMPTY, cfg, steps);
    AgreementAt(Run(EMPTY, cfg, steps), t);
  }

  lemma AgreementAt(s: State, t: W.Transfer)
    requires Inv(s) && t in s.w.transfers && CaughtUp(s, t.id)
    ensures Agrees(t, s.o.rows)
  {
    assert WP.StatusFollows(s.w.processed, t) && O.CountsOk(s.o, t.id);
    DepositLogNotAboutTransfers(s.d);
    SeenIsEmitted(s, t.id);
    CountsAgree(s.w.processed, s.o, t);
  }

  lemma CountsAgree(processed: set<EventId>, o: O.State, t: W.Transfer)
    requires WP.StatusFollows(processed, t) && O.CountsOk(o, t.id)
    requires WP.FailSeen(processed, t.id) <==> O.Failures(o, t.id) > 0
    requires WP.ConfirmSeen(processed, t.id) <==> O.Confirms(o, t.id) > 0
    ensures Agrees(t, o.rows)
  {
  }

  // ---- each movement is accounted once ----

  /** These terms move the transfer's amount from an address of its sender to one of its recipient. */
  predicate Pays(d: W.Directory, t: W.Transfer, info: TxInfo)
  {
    && info == TxInfo(t.fromAddr, t.toAddr, t.req.amount, false)
    && info.sender in d.owners && d.owners[info.sender] == t.req.sender
    && info.recipient in d.owners && d.owners[info.recipient] == t.req.recipient
  }

  ghost predicate PartiesOk(s: State) { Inv(s) && WP.KeysOk(s.w) && R.RequestsKept(s.w) }

  lemma StepKeepsParties(s: State, cfg: Settings, step: Step)
    requires PartiesOk(s) && Enabled(s, cfg, step)
    ensures PartiesOk(Next(s, cfg, step))
  {
    StepKeeps(s, cfg, step);
    match step
    case WalletStep(ws) =>
      if ws.Api? {
        UnusedIsFresh(s, ws.id);
      }
      WP.StepKeepsKeys(s.w, ws);
      R.StepKeepsRequests(s.w, ws);
    case Deliver(e, crashed) =>
      WP.StepKeepsKeys(s.w, W.Deliver(e, crashed));
      R.StepKeepsRequests(s.w, W.Deliver(e, crashed));
    case _ =>
  }

  lemma {:induction false} RunKeepsParties(s: State, cfg: Settings, steps: seq<Step>)
    requires PartiesOk(s) && ValidRun(s, cfg, steps)
    ensures PartiesOk(Run(s, cfg, steps))
    decreases |steps|
  {
    if steps != [] {
      StepKeepsParties(s, cfg, steps[0]);
      RunKeepsParties(Next(s, cfg, steps[0]), cfg, steps[1..]);
    }
  }

  /**
    * However often the broadcaster retries, one transaction exists per transfer; it moves the transfer's
    * amount from its sender's address to its recipient's; at most one canonical block holds it; and it
    * never becomes a deposit.
    */
  lemma MovementAccountedOnce(cfg: Settings, steps: seq<Step>, t: TransferId)
    requires ValidRun(EMPTY, cfg, steps)
    requires ForTransfer(t) in Run(EMPTY, cfg, steps).d.chain.submitted
    ensures var s := Run(EMPTY, cfg, steps);
            var info := s.d.chain.submitted[ForTransfer(t)];
            && (exists u :: u in s.w.transfers && u.id == t && Pays(s.w.directory, u, info))
            && (forall i, j :: 0 <= i < j < |s.d.chain.path| && HasTx(s.d.chain.path[i], ForTransfer(t)) ==>
                  !HasTx(s.d.chain.path[j], ForTransfer(t)))
            && (forall id :: id in s.d.rows ==> id.tx != ForTransfer(t))
  {
    EmptyInv();
    RunKeepsParties(EMPTY, cfg, steps);
    var s := Run(EMPTY, cfg, steps);
    var r := s.o.rows[t];
    var u :| u in s.w.transfers && u.id == t && u.fromAddr == r.sender && u.toAddr == r.recipient
        && u.req.amount == r.amount;
    assert Pays(s.w.directory, u, s.d.chain.submitted[ForTransfer(t)]);
  }

  /** Over any continuation the node keeps the terms it was first given. */
  lemma {:induction false} FirstTermsStay(s: State, cfg: Settings, steps: seq<Step>, tx: TxRef)
    requires ValidRun(s, cfg, steps) && tx in s.d.chain.submitted
    ensures tx in Run(s, cfg, steps).d.chain.submitted
    ensures Run(s, cfg, steps).d.chain.submitted[tx] == s.d.chain.submitted[tx]
    decreases |steps|
  {
    if steps != [] {
      if steps[0].DepositStep? && !steps[0].ds.ChainStep? {
        SameChain(s.d, cfg.deposits, steps[0].ds);
      }
      FirstTermsStay(Next(s, cfg, steps[0]), cfg, steps[1..], tx);
    }
  }

  /** A settled transfer was mined successfully in some block and moved its amount from its sender to its recipient. */
  lemma SettlementIsBacked(cfg: Settings, steps: seq<Step>, t: W.Transfer)
    requires ValidRun(EMPTY, cfg, steps)
    requires t in Run(EMPTY, cfg, steps).w.transfers && t.status.Confirmed?
    ensures var s := Run(EMPTY, cfg, steps);
            var c := s.d.chain;
            && MinedSomewhere(c, t.id)
            && ForTransfer(t.id) in c.submitted
            && Pays(s.w.directory, t, c.submitted[ForTransfer(t.id)])
  {
    EmptyInv();
    RunKeepsParties(EMPTY, cfg, steps);
    var s := Run(EMPTY, cfg, steps);
    assert WP.StatusFollows(s.w.processed, t);
    DepositLogNotAboutTransfers(s.d);
    ConfirmedIsMined(s, t.id);
    MinedMeansSubmitted(s.d.chain, t.id);
    UniqueTerms(s, t);
  }

  lemma ConfirmedIsMined(s: State, t: TransferId)
    requires Sourced(s.w.processed, s.d.log, s.o.log) && NotAboutTransfers(s.d.log)
    requires Backed(s.d.chain, s.o.log, s.o.watch) && WP.ConfirmSeen(s.w.processed, t)
    ensures MinedSomewhere(s.d.chain, t)
  {
    FromOutgoing(s, TxConfirmedId(t), t);
    var x :| x in s.o.log && Id(x) == TxConfirmedId(t);
  }

  lemma MinedMeansSubmitted(c: Chain, t: TransferId)
    requires ChainOk(c) && MinedSomewhere(c, t)
    ensures ForTransfer(t) in c.submitted
  {
    var h :| h in c.blocks && MinedIn(c.blocks[h], ForTransfer(t));
    assert FromMempool(c.blocks[h].txs, c.submitted);
  }

  lemma UniqueTerms(s: State, t: W.Transfer)
    requires Inv(s) && t in s.w.transfers && ForTransfer(t.id) in s.d.chain.submitted
    ensures s.d.chain.submitted[ForTransfer(t.id)] == TxInfo(t.fromAddr, t.toAddr, t.req.amount, false)
  {
    var r := s.o.rows[t.id];
    var u :| u in s.w.transfers && u.id == t.id && u.fromAddr == r.sender && u.toAddr == r.recipient
        && u.req.amount == r.amount;
    assert u == t;
  }
}
