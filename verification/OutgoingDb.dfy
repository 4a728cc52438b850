/**
  * The outgoing-transaction tables and the workers that change them in place. A whole tick of a worker
  * is proved to be a run of the row protocol, so what every run keeps is kept by every tick.
  */
module OutgoingDb {
  import opened Events
  import opened Outgoing
  import opened OutgoingTicks

  datatype Label = Duplicate | Ignored | Processed

  // ---- claiming ----

  ghost predicate Pickable(s: State, picked: seq<TransferId>)
  {
    Distinct(picked) && forall t :: t in picked ==> Claimable(s, t)
  }

  /** The bulk update of the claim statement. */
  function ClaimedRows(rows: map<TransferId, Row>, picked: seq<TransferId>): map<TransferId, Row>
  {
    map t | t in rows :: if t in picked then rows[t].(status := Pending, attempts := rows[t].attempts + 1) else rows[t]
  }

  function Picked(picked: seq<TransferId>): set<TransferId> { set t | t in picked }

  /** Claiming a batch in one statement is claiming its rows one by one. */
  lemma {:induction false} BulkClaim(s: State, cfg: Settings, picked: seq<TransferId>)
    requires Pickable(s, picked)
    ensures ValidRun(s, cfg, Claims(picked))
    ensures Run(s, cfg, Claims(picked)) == s.(rows := ClaimedRows(s.rows, picked), flight := s.flight + Picked(picked))
  {
    if picked == [] {
      assert ClaimedRows(s.rows, picked) == s.rows;
      assert s.flight + Picked(picked) == s.flight;
    } else {
      var front, t := picked[..|picked| - 1], picked[|picked| - 1];
      assert picked == front + [t] && t !in front;
      BulkClaim(s, cfg, front);
      assert Claimable(s, t);
      ClaimOneMore(s, front, t);
      RunSnoc(s, cfg, Claims(front), ClaimRow(t));
    }
  }

  lemma ClaimOneMore(s: State, front: seq<TransferId>, t: TransferId)
    requires Claimable(s, t) && t !in front
    ensures var s1 := s.(rows := ClaimedRows(s.rows, front), flight := s.flight + Picked(front));
            && Claimable(s1, t)
            && Claim(s1, t) == s.(rows := ClaimedRows(s.rows, front + [t]), flight := s.flight + Picked(front + [t]))
  {
    var s1 := s.(rows := ClaimedRows(s.rows, front), flight := s.flight + Picked(front));
    assert Claim(s1, t).rows == ClaimedRows(s.rows, front + [t]);
    assert Claim(s1, t).flight == s.flight + Picked(front + [t]);
  }

  class OutgoingDb {
    var rows: map<TransferId, Row>
    var flight: set<TransferId>
    var log: seq<Event>
    var processed: set<EventId>

    function Value(): State
      reads this
    {
      State(rows, flight, None, log)
    }

    constructor ()
      ensures Value() == EMPTY && processed == {}
    {
      rows, flight, log, processed := map[], {}, [], {};
    }

    // ---- accept_transfer_request, dispatch ----

    method AcceptRequest(t: TransferId, sender: Addr, recipient: Addr, amount: int, known: bool) returns (r: Label)
      modifies this`rows, this`log
      ensures Value() == Accept(old(Value()), t, sender, recipient, amount, known)
      ensures r.Duplicate? <==> t in old(rows)
    {
      if t in rows {
        return Duplicate;
      }
      rows := rows[t := Row(sender, recipient, amount, Created, 0, false, None, None, 0)];
      if !known {
        rows := rows[t := rows[t].(status := Failed)];
        log := Enqueue(log, TxFailed(t, UnknownSendingAddress, false));
      }
      r := Processed;
    }

    /**
      * Dedupe row and row insert in one transaction: whatever is redelivered, a transfer gets one row with its first
      * terms.
      */
    method Dispatch(e: Event, addresses: set<Addr>) returns (r: Label)
      modifies this`rows, this`log, this`processed
      ensures Id(e) in processed && processed == old(processed) + {Id(e)}
      ensures Id(e) in old(processed) ==> r.Duplicate? && Value() == old(Value())
      ensures Id(e) !in old(processed) && e.TransferRequested? ==>
                Value() == Accept(old(Value()), e.transfer, e.sender, e.recipient, e.amount, e.sender in addresses)
      ensures !e.TransferRequested? ==> Value() == old(Value())
      ensures forall t :: t in old(rows) ==> t in rows && rows[t] == old(rows)[t]
    {
      if Id(e) in processed {
        return Duplicate;
      }
      processed := processed + {Id(e)};
      if e.TransferRequested? {
        r := AcceptRequest(e.transfer, e.sender, e.recipient, e.amount, e.sender in addresses);
      } else {
        r := Ignored;
      }
    }

    // ---- BroadcastWorker ----

    method RecordFailure(t: TransferId, code: FailCode)
      requires t in rows
      modifies this`rows, this`flight, this`log
      ensures Value() == Outgoing.RecordFailure(old(Value()), t, code)
    {
      flight := flight - {t};
      if rows[t].status.Confirmed? {
        return;
      }
      rows := rows[t := rows[t].(status := Failed)];
      log := Enqueue(log, TxFailed(t, code, false));
    }

    method BroadcastOne(cfg: Settings, t: TransferId, answer: Answer)
      requires t in rows && t in flight
      modifies this`rows, this`flight, this`log
      ensures Value() == Next(old(Value()), cfg, SendStep(t, answer))
    {
      match answer
      case NodeRejected => RecordFailure(t, RejectedByNode);
      case Trouble(unavailable) =>
        if rows[t].attempts >= cfg.maxAttempts {
          RecordFailure(t, if unavailable then RpcUnavailable else BroadcastFailed);
        } else {
          rows := rows[t := rows[t].(status := Pending)];
          flight := flight - {t};
        }
      case Sent =>
        flight := flight - {t};
        if !(rows[t].status.Confirmed? || rows[t].status.Failed?) {
          rows := rows[t := rows[t].(status := Broadcasted, sent := true)];
          log := Enqueue(log, TxBroadcasted(t));
        }
    }

    /**
      * One tick: claim a batch, then send it row by row. It is a run of the protocol; afterwards every picked row
      * is what its answer makes of it, no other row has changed, and the log grew by the events of these answers.
      */
    method BroadcastOnce(cfg: Settings, picked: seq<TransferId>, answers: TransferId -> Answer)
      requires Inv(Value()) && Pickable(Value(), picked)
      modifies this`rows, this`flight, this`log
      ensures ValidRun(old(Value()), cfg, Claims(picked) + Sends(picked, answers))
      ensures Value() == Run(old(Value()), cfg, Claims(picked) + Sends(picked, answers))
      ensures Inv(Value()) && flight == old(flight)
      ensures AllSent(cfg, old(rows), rows, picked, answers)
      ensures Logged(old(log), log, picked, SendEvents(cfg, old(rows), answers))
    {
      ghost var s := Value();
      BulkClaim(s, cfg, picked);
      RunKeeps(s, cfg, Claims(picked));
      rows := ClaimedRows(rows, picked);
      flight := flight + Picked(picked);
      SendsTell(Value(), cfg, s.rows, picked, answers, picked);
      SendAll(cfg, picked, answers);
      RunConcat(s, cfg, Claims(picked), Sends(picked, answers));
      assert flight == s.flight;
    }

    method SendAll(cfg: Settings, picked: seq<TransferId>, answers: TransferId -> Answer)
      requires Distinct(picked) && forall t :: t in picked ==> t in flight && t in rows
      modifies this`rows, this`flight, this`log
      ensures ValidRun(old(Value()), cfg, Sends(picked, answers))
      ensures Value() == Run(old(Value()), cfg, Sends(picked, answers))
    {
      ghost var s := Value();
      for i := 0 to |picked|
        invariant forall k :: i <= k < |picked| ==> picked[k] in flight && picked[k] in rows
        invariant ValidRun(s, cfg, Sends(picked[..i], answers)) && Value() == Run(s, cfg, Sends(picked[..i], answers))
      {
        assert picked[..i + 1][..i] == picked[..i];
        RunSnoc(s, cfg, Sends(picked[..i], answers), SendStep(picked[i], answers(picked[i])));
        BroadcastOne(cfg, picked[i], answers(picked[i]));
      }
      assert picked[..|picked|] == picked;
    }

    // ---- OutgoingTransactionWatcher ----

    method HandleStuck(cfg: Settings, t: TransferId, attempts: nat, aged: bool, ghost c: Check)
      requires t in rows && c.transfer == t && c.attempts == attempts
      modifies this`rows, this`log
      ensures Value() == Outgoing.HandleStuck(old(Value()), cfg, c, aged)
    {
      if !rows[t].sent || !aged {
        return;
      }
      if attempts < cfg.maxAttempts {
        rows := rows[t := rows[t].(status := Pending)];
        return;
      }
      rows := rows[t := rows[t].(status := Failed)];
      log := Enqueue(log, TxFailed(t, StuckPending, false));
    }

    method RecordReceipt(cfg: Settings, t: TransferId, head: nat, receipt: Receipt, ghost c: Check)
      requires t in rows && c.transfer == t && c.head == head
      modifies this`rows, this`log
      ensures Value() == Outgoing.RecordReceipt(old(Value()), cfg, c, receipt)
    {
      var r := rows[t].(number := Some(receipt.number), block := Some(receipt.hash),
                        confirmations := Depth(head, receipt.number));
      if !receipt.ok {
        if r.status.Failed? {
          rows := rows[t := r];
          return;
        }
        rows := rows[t := r.(status := Failed)];
        log := Enqueue(log, TxFailed(t, RevertedOnChain, false));
        return;
      }
      if r.status.Broadcasted? && r.confirmations >= cfg.required {
        rows := rows[t := r.(status := Confirmed)];
        log := Enqueue(log, TxConfirmed(t));
        return;
      }
      rows := rows[t := r];
    }

    method CheckOne(cfg: Settings, t: TransferId, head: nat, finding: Finding)
      requires Candidate(Value(), cfg, t, head)
      modifies this`rows, this`log
      ensures var read := Next(old(Value()), cfg, CheckRead(t, head, finding.receipt));
              Value() == Next(read, cfg, CheckCommit(finding.aged))
    {
      var status, attempts := rows[t].status, rows[t].attempts;
      ghost var c := Check(t, head, status, attempts, finding.receipt);
      if finding.receipt.None? {
        if status.Confirmed? {
          var block := rows[t].block;
          rows := rows[t := rows[t].(status := Reorged)];
          log := Enqueue(log, TxFailed(t, ChainReorg(block), true));
        } else {
          HandleStuck(cfg, t, attempts, finding.aged, c);
        }
      } else {
        RecordReceipt(cfg, t, head, finding.receipt.value, c);
      }
    }

    /**
      * One tick over a query of the table: the BROADCASTED and CONFIRMED rows without a block or with one above
      * the finality depth. Rows without a transaction hash are skipped; every other is what its finding makes
      * of it, no further row has changed, and the log grew by the events of these findings.
      */
    method CheckOnce(cfg: Settings, head: nat, findings: TransferId -> Finding) returns (ghost ids: seq<TransferId>)
      requires Inv(Value())
      modifies this`rows, this`log
      ensures ValidRun(old(Value()), cfg, Checks(ids, head, findings))
      ensures Value() == Run(old(Value()), cfg, Checks(ids, head, findings))
      ensures Inv(Value())
      ensures forall t :: t in ids <==> t in old(rows) && ToCheck(cfg, head, old(rows)[t])
      ensures AllChecked(cfg, head, old(rows), rows, ids, findings)
      ensures Logged(old(log), log, ids, CheckEvents(cfg, head, old(rows), findings))
    {
      ghost var s := Value();
      ids := [];
      var rest := set t | t in rows && (rows[t].status.Broadcasted? || rows[t].status.Confirmed?)
                          && (rows[t].number.None? || rows[t].number.value > head - cfg.finality);
      while rest != {}
        invariant MidTick(s, Value(), cfg, head, findings, ids, rest)
        decreases rest
      {
        var t :| t in rest;
        ghost var v := Value();
        if rows[t].sent {
          CheckedOneMore(s, v, cfg, head, findings, ids, rest, t);
          CheckOne(cfg, t, head, findings(t));
          ids := ids + [t];
        }
        rest := rest - {t};
      }
      ChecksTell(s, cfg, head, ids, findings);
    }
  }

  /** A tick that began in `s`: the rows in `ids` are checked, those in `rest` are listed and as they were. */
  ghost predicate MidTick(
      s: State, v: State, cfg: Settings, head: nat, findings: TransferId -> Finding, ids: seq<TransferId>,
      rest: set<TransferId>)
  {
    && Distinct(ids) && (forall t :: t in ids ==> t !in rest && t in s.rows && ToCheck(cfg, head, s.rows[t]))
    && (forall t :: t in rest ==> t in s.rows && t in v.rows && v.rows[t] == s.rows[t] && Listed(cfg, head, s.rows[t]))
    && (forall t :: t in s.rows && ToCheck(cfg, head, s.rows[t]) ==> t in rest || t in ids)
    && ValidRun(s, cfg, Checks(ids, head, findings)) && v == Run(s, cfg, Checks(ids, head, findings))
    && Inv(v) && v.watch.None?
  }

  lemma CheckedOneMore(
      s: State, v: State, cfg: Settings, head: nat, findings: TransferId -> Finding, ids: seq<TransferId>,
      rest: set<TransferId>, t: TransferId)
    requires MidTick(s, v, cfg, head, findings, ids, rest) && t in rest && v.rows[t].sent
    ensures Candidate(v, cfg, t, head)
    ensures var read := Next(v, cfg, CheckRead(t, head, findings(t).receipt));
            MidTick(s, Next(read, cfg, CheckCommit(findings(t).aged)), cfg, head, findings, ids + [t], rest - {t})
  {
    assert (ids + [t])[..|ids|] == ids;
    CheckSnoc(s, cfg, head, ids + [t], findings);
    CheckTells(v, cfg, head, t, findings(t));
  }

  /** The watcher's query. */
  predicate Listed(cfg: Settings, head: nat, r: Row)
  {
    && (r.status == Broadcasted || r.status == Outgoing.Confirmed)
    && (r.number == None || r.number.value > head - cfg.finality)
  }

  predicate ToCheck(cfg: Settings, head: nat, r: Row) { Listed(cfg, head, r) && r.sent }
}
