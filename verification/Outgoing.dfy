/**
  * Outgoing transactions: accept, claim, broadcast, confirm, requeue, fail, reorg.
  * One broadcaster and one watcher, interleaved between any two of their database transactions, with
  * crashes; the node's answers and the clock are arbitrary.
  */
module Outgoing {
  import opened Events
  import opened Sums

  datatype Status = Created | Pending | Broadcasted | Confirmed | Failed | Reorged

  datatype Receipt = Receipt(number: nat, hash: Hash, ok: bool)

  /** `sent` stands for "tx_hash and broadcast_at are set": the broadcaster writes both together. */
  datatype Row = Row(
    sender: Addr, recipient: Addr, amount: int, status: Status, attempts: nat,
    sent: bool, number: Option<nat>, block: Option<Hash>, confirmations: nat)

  /** What a watcher check has read: the row's status and attempts, and the receipt. */
  datatype Check = Check(transfer: TransferId, head: nat, status: Status, attempts: nat, receipt: Option<Receipt>)

  datatype Settings = Settings(required: nat, finality: nat, maxAttempts: nat)

  /** `flight`: rows claimed by the broadcaster whose network call is not finished. */
  datatype State = State(rows: map<TransferId, Row>, flight: set<TransferId>, watch: Option<Check>, log: seq<Event>)

  predicate Terminal(s: Status) { s.Failed? || s.Reorged? }

  function SetRow(s: State, t: TransferId, r: Row): State { s.(rows := s.rows[t := r]) }

  function Emit(s: State, e: Event): State { s.(log := Enqueue(s.log, e)) }

  // ---- accept_transfer_request ----

  function Accept(s: State, t: TransferId, sender: Addr, recipient: Addr, amount: int, known: bool): State
  {
    if t in s.rows then s
    else
      var r := Row(sender, recipient, amount, Created, 0, false, None, None, 0);
      if known then SetRow(s, t, r)
      else Emit(SetRow(s, t, r.(status := Failed)), TxFailed(t, UnknownSendingAddress, false))
  }

  // ---- BroadcastWorker ----

  predicate Claimable(s: State, t: TransferId)
  {
    t in s.rows && t !in s.flight && (s.rows[t].status.Created? || s.rows[t].status.Pending?)
  }

  function Claim(s: State, t: TransferId): State
    requires t in s.rows
  {
    SetRow(s, t, s.rows[t].(status := Pending, attempts := s.rows[t].attempts + 1)).(flight := s.flight + {t})
  }

  function Landed(s: State, t: TransferId): State { s.(flight := s.flight - {t}) }

  function RecordSent(s: State, t: TransferId): State
    requires t in s.rows
  {
    if s.rows[t].status.Confirmed? || s.rows[t].status.Failed? then Landed(s, t)
    else Emit(SetRow(Landed(s, t), t, s.rows[t].(status := Broadcasted, sent := true)), TxBroadcasted(t))
  }

  function RecordFailure(s: State, t: TransferId, code: FailCode): State
    requires t in s.rows
  {
    if s.rows[t].status.Confirmed? then Landed(s, t)
    else Emit(SetRow(Landed(s, t), t, s.rows[t].(status := Failed)), TxFailed(t, code, false))
  }

  function RecordSendError(s: State, cfg: Settings, t: TransferId, unavailable: bool): State
    requires t in s.rows
  {
    if s.rows[t].attempts < cfg.maxAttempts then SetRow(Landed(s, t), t, s.rows[t].(status := Pending))
    else RecordFailure(s, t, if unavailable then RpcUnavailable else BroadcastFailed)
  }

  // ---- OutgoingTransactionWatcher ----

  predicate Candidate(s: State, cfg: Settings, t: TransferId, head: nat)
  {
    && t in s.rows && (s.rows[t].status.Broadcasted? || s.rows[t].status.Confirmed?)
    && (s.rows[t].number.None? || s.rows[t].number.value > head - cfg.finality)
    && s.rows[t].sent
  }

  function HandleStuck(s: State, cfg: Settings, c: Check, aged: bool): State
    requires c.transfer in s.rows
  {
    var r := s.rows[c.transfer];
    if !r.sent || !aged then s
    else if c.attempts < cfg.maxAttempts then SetRow(s, c.transfer, r.(status := Pending))
    else Emit(SetRow(s, c.transfer, r.(status := Failed)), TxFailed(c.transfer, StuckPending, false))
  }

  function MarkReorged(s: State, t: TransferId): State
    requires t in s.rows
  {
    Emit(SetRow(s, t, s.rows[t].(status := Reorged)), TxFailed(t, ChainReorg(s.rows[t].block), true))
  }

  function Depth(head: nat, number: nat): nat { if head + 1 >= number then head + 1 - number else 0 }

  function RecordReceipt(s: State, cfg: Settings, c: Check, receipt: Receipt): State
    requires c.transfer in s.rows
  {
    var r := s.rows[c.transfer].(number := Some(receipt.number), block := Some(receipt.hash),
                                 confirmations := Depth(c.head, receipt.number));
    if !receipt.ok then
      if r.status.Failed? then SetRow(s, c.transfer, r)
      else Emit(SetRow(s, c.transfer, r.(status := Failed)), TxFailed(c.transfer, RevertedOnChain, false))
    else if r.status.Broadcasted? && r.confirmations >= cfg.required then
      Emit(SetRow(s, c.transfer, r.(status := Confirmed)), TxConfirmed(c.transfer))
    else SetRow(s, c.transfer, r)
  }

  function CommitCheck(s: State, cfg: Settings, c: Check, aged: bool): State
    requires c.transfer in s.rows
  {
    match c.receipt
    case None => if c.status.Confirmed? then MarkReorged(s, c.transfer) else HandleStuck(s, cfg, c, aged)
    case Some(receipt) => RecordReceipt(s, cfg, c, receipt)
  }

  // ---- steps ----

  datatype Step =
    | AcceptRequest(transfer: TransferId, sender: Addr, recipient: Addr, amount: int, known: bool)
    | ClaimRow(transfer: TransferId)
    | SendOk(transfer: TransferId)
    | SendRejected(transfer: TransferId)
    | SendError(transfer: TransferId, unavailable: bool)
    | BroadcasterCrash
    | CheckRead(transfer: TransferId, head: nat, receipt: Option<Receipt>)
    | CheckCommit(aged: bool)
    | WatcherCrash

  predicate Enabled(s: State, cfg: Settings, step: Step)
  {
    match step
    case AcceptRequest(_, _, _, _, _) => true
    case ClaimRow(t) => Claimable(s, t)
    case SendOk(t) => t in s.flight && t in s.rows
    case SendRejected(t) => t in s.flight && t in s.rows
    case SendError(t, _) => t in s.flight && t in s.rows
    case BroadcasterCrash => true
    case CheckRead(t, head, _) => s.watch.None? && Candidate(s, cfg, t, head)
    case CheckCommit(_) => s.watch.Some? && s.watch.value.transfer in s.rows
    case WatcherCrash => true
  }

  function Next(s: State, cfg: Settings, step: Step): State
    requires Enabled(s, cfg, step)
  {
    match step
    case AcceptRequest(t, sender, recipient, amount, known) => Accept(s, t, sender, recipient, amount, known)
    case ClaimRow(t) => Claim(s, t)
    case SendOk(t) => RecordSent(s, t)
    case SendRejected(t) => RecordFailure(s, t, RejectedByNode)
    case SendError(t, unavailable) => RecordSendError(s, cfg, t, unavailable)
    case BroadcasterCrash => s.(flight := {})
    case CheckRead(t, head, receipt) => s.(watch := Some(Check(t, head, s.rows[t].status, s.rows[t].attempts, receipt)))
    case CheckCommit(aged) => CommitCheck(s, cfg, s.watch.value, aged).(watch := None)
    case WatcherCrash => s.(watch := None)
  }

  predicate ValidRun(s: State, cfg: Settings, steps: seq<Step>)
    decreases |steps|
  {
    steps == [] || (Enabled(s, cfg, steps[0]) && ValidRun(Next(s, cfg, steps[0]), cfg, steps[1..]))
  }

  function Run(s: State, cfg: Settings, steps: seq<Step>): State
    requires ValidRun(s, cfg, steps)
    decreases |steps|
  {
    if steps == [] then s else Run(Next(s, cfg, steps[0]), cfg, steps[1..])
  }

  // ---- runs grow at their end ----

  lemma {:induction false} RunSnoc(s: State, cfg: Settings, steps: seq<Step>, step: Step)
    requires ValidRun(s, cfg, steps) && Enabled(Run(s, cfg, steps), cfg, step)
    ensures ValidRun(s, cfg, steps + [step])
    ensures Run(s, cfg, steps + [step]) == Next(Run(s, cfg, steps), cfg, step)
    decreases |steps|
  {
    if steps == [] {
      assert [] + [step] == [step] && [step][1..] == [];
    } else {
      RunSnoc(Next(s, cfg, steps[0]), cfg, steps[1..], step);
      assert (steps + [step])[1..] == steps[1..] + [step];
    }
  }

  lemma {:induction false} RunConcat(s: State, cfg: Settings, a: seq<Step>, b: seq<Step>)
    requires ValidRun(s, cfg, a) && ValidRun(Run(s, cfg, a), cfg, b)
    ensures ValidRun(s, cfg, a + b) && Run(s, cfg, a + b) == Run(Run(s, cfg, a), cfg, b)
    decreases |a|
  {
    if a == [] {
      assert [] + b == b;
    } else {
      RunConcat(Next(s, cfg, a[0]), cfg, a[1..], b);
      assert (a + b)[1..] == a[1..] + b;
    }
  }

  const EMPTY: State := State(map[], {}, None, [])

  // ---- the invariant: the events of a transfer are determined by its row ----

  function ConfirmsOf(t: TransferId): Event -> int
  {
    (e: Event) => if e.TxConfirmed? && e.transfer == t then 1 else 0
  }

  function FailuresOf(t: TransferId): Event -> int
  {
    (e: Event) => if e.TxFailed? && e.transfer == t then 1 else 0
  }

  function Confirms(s: State, t: TransferId): int { Sum(s.log, ConfirmsOf(t)) }
  function Failures(s: State, t: TransferId): int { Sum(s.log, FailuresOf(t)) }

  function StatusOf(s: State, t: TransferId): Option<Status>
  {
    if t in s.rows then Some(s.rows[t].status) else None
  }

  predicate CountsFit(status: Option<Status>, confirms: int, failures: int)
  {
    match status
    case None => confirms == 0 && failures == 0
    case Some(Confirmed) => confirms == 1 && failures == 0
    case Some(Reorged) => confirms == 1 && failures == 1
    case Some(Failed) => 0 <= confirms <= 1 && failures == 1
    case Some(_) => confirms == 0 && failures == 0
  }

  ghost predicate CountsOk(s: State, t: TransferId)
  {
    CountsFit(StatusOf(s, t), Confirms(s, t), Failures(s, t))
  }

  /** The two workers never hold the same row, and a check in progress still describes its row. */
  ghost predicate WorkersOk(s: State)
  {
    && (forall t :: t in s.flight ==> t in s.rows && s.rows[t].status.Pending?)
    && match s.watch
       case None => true
       case Some(c) =>
         && c.transfer in s.rows && s.rows[c.transfer].status == c.status && s.rows[c.transfer].attempts == c.attempts
         && (c.status.Broadcasted? || c.status.Confirmed?) && s.rows[c.transfer].sent
  }

  ghost predicate Inv(s: State)
  {
    WorkersOk(s) && (forall t :: CountsOk(s, t)) && UniqueIds(s.log)
  }

  lemma {:induction false} NoneEmitted(log: seq<Event>, t: TransferId)
    ensures Sum(log, FailuresOf(t)) == 0 ==> forall e :: e in log ==> !(e.TxFailed? && e.transfer == t)
    ensures Sum(log, ConfirmsOf(t)) == 0 ==> forall e :: e in log ==> !(e.TxConfirmed? && e.transfer == t)
    ensures Sum(log, FailuresOf(t)) >= 0 && Sum(log, ConfirmsOf(t)) >= 0
  {
    SumNonNegative(log, FailuresOf(t));
    SumNonNegative(log, ConfirmsOf(t));
    forall i | 0 <= i < |log|
      ensures FailuresOf(t)(log[i]) <= Sum(log, FailuresOf(t)) && ConfirmsOf(t)(log[i]) <= Sum(log, ConfirmsOf(t))
    {
      SumBoundsRow(log, FailuresOf(t), i);
      SumBoundsRow(log, ConfirmsOf(t), i);
    }
  }

  lemma FirstIsNew(log: seq<Event>, e: Event)
    requires e.TxFailed? || e.TxConfirmed?
    requires e.TxFailed? ==> Sum(log, FailuresOf(e.transfer)) == 0
    requires e.TxConfirmed? ==> Sum(log, ConfirmsOf(e.transfer)) == 0
    ensures !Emitted(log, Id(e))
  {
    NoneEmitted(log, e.transfer);
    forall x | x in log ensures Id(x) != Id(e) {
    }
  }

  /** Emitting a first confirmation or failure is never swallowed, and counts for its transfer alone. */
  lemma EmitCounts(log: seq<Event>, e: Event, t: TransferId)
    requires e.TxFailed? ==> Sum(log, FailuresOf(e.transfer)) == 0
    requires e.TxConfirmed? ==> Sum(log, ConfirmsOf(e.transfer)) == 0
    ensures Sum(Enqueue(log, e), FailuresOf(t)) == Sum(log, FailuresOf(t)) + FailuresOf(t)(e)
    ensures Sum(Enqueue(log, e), ConfirmsOf(t)) == Sum(log, ConfirmsOf(t)) + ConfirmsOf(t)(e)
  {
    if e.TxFailed? || e.TxConfirmed? {
      FirstIsNew(log, e);
    }
    if !Emitted(log, Id(e)) {
      SumAppend(log, e, FailuresOf(t));
      SumAppend(log, e, ConfirmsOf(t));
    }
  }

  lemma SameLogSameCounts(s: State, s1: State, t: TransferId)
    requires CountsOk(s, t) && s1.log == s.log
    requires t in s.rows <==> t in s1.rows
    requires t in s.rows ==> s1.rows[t].status == s.rows[t].status ||
                             (!s.rows[t].status.Confirmed? && !Terminal(s.rows[t].status)
                              && !s1.rows[t].status.Confirmed? && !Terminal(s1.rows[t].status))
    ensures CountsOk(s1, t)
  {
  }

  lemma AcceptKeeps(s: State, cfg: Settings, step: Step)
    requires Inv(s) && step.AcceptRequest?
    ensures Inv(Next(s, cfg, step))
  {
    forall t ensures CountsOk(Next(s, cfg, step), t) {
      assert CountsOk(s, t);
      AcceptCounts(s, step.transfer, step.sender, step.recipient, step.amount, step.known, t);
    }
  }

  lemma AcceptCounts(s: State, x: TransferId, sender: Addr, recipient: Addr, amount: int, known: bool, t: TransferId)
    requires CountsOk(s, t) && CountsOk(s, x)
    ensures CountsOk(Accept(s, x, sender, recipient, amount, known), t)
  {
    var s1 := Accept(s, x, sender, recipient, amount, known);
    if x !in s.rows && !known {
      EmitCounts(s.log, TxFailed(x, UnknownSendingAddress, false), t);
      assert Confirms(s1, t) == Confirms(s, t);
      assert Failures(s1, t) == Failures(s, t) + if x == t then 1 else 0;
    } else {
      assert s1.log == s.log;
    }
  }

  lemma FailureCounts(s: State, s1: State, t: TransferId, code: FailCode, flag: bool, x: TransferId)
    requires CountsOk(s, t) && CountsOk(s, x)
    requires t in s.rows && !Terminal(s.rows[t].status) && t in s1.rows
    requires s1.rows[t].status.Failed? || (s1.rows[t].status.Reorged? && s.rows[t].status.Confirmed?)
    requires x != t ==> StatusOf(s1, x) == StatusOf(s, x)
    requires s1.log == Enqueue(s.log, TxFailed(t, code, flag))
    ensures CountsOk(s1, x)
  {
    EmitCounts(s.log, TxFailed(t, code, flag), x);
    assert Confirms(s1, x) == Confirms(s, x);
    assert Failures(s1, x) == Failures(s, x) + if x == t then 1 else 0;
  }

  /** Writing a failure of a non-terminal row. */
  lemma FailureKeeps(s: State, s1: State, t: TransferId, status: Status, code: FailCode, flag: bool)
    requires (forall x :: CountsOk(s, x)) && UniqueIds(s.log)
    requires t in s.rows && !Terminal(s.rows[t].status)
    requires status.Failed? || (status.Reorged? && s.rows[t].status.Confirmed?)
    requires s1.rows.Keys == s.rows.Keys && s1.rows[t].status == status
    requires forall x :: x in s.rows && x != t ==> s1.rows[x] == s.rows[x]
    requires s1.log == Enqueue(s.log, TxFailed(t, code, flag))
    ensures (forall x :: CountsOk(s1, x)) && UniqueIds(s1.log)
  {
    assert t in s1.rows && CountsOk(s, t);
    forall x ensures CountsOk(s1, x) {
      assert CountsOk(s, x);
      assert x in s.rows <==> x in s1.rows;
      FailureCounts(s, s1, t, code, flag, x);
    }
  }

  /** Writing the confirmation of a broadcast row. */
  lemma ConfirmKeeps(s: State, s1: State, t: TransferId)
    requires (forall x :: CountsOk(s, x)) && UniqueIds(s.log)
    requires t in s.rows && s.rows[t].status.Broadcasted?
    requires s1.rows.Keys == s.rows.Keys && s1.rows[t].status.Confirmed?
    requires forall x :: x in s.rows && x != t ==> s1.rows[x] == s.rows[x]
    requires s1.log == Enqueue(s.log, TxConfirmed(t))
    ensures (forall x :: CountsOk(s1, x)) && UniqueIds(s1.log)
  {
    assert CountsOk(s, t);
    forall x ensures CountsOk(s1, x) {
      assert CountsOk(s, x);
      EmitCounts(s.log, TxConfirmed(t), x);
    }
  }

  lemma BroadcasterKeeps(s: State, cfg: Settings, step: Step)
    requires Inv(s) && Enabled(s, cfg, step)
    requires step.ClaimRow? || step.SendOk? || step.SendRejected? || step.SendError?
    ensures Inv(Next(s, cfg, step))
  {
    var s1 := Next(s, cfg, step);
    var t := step.transfer;
    if step.SendOk? {
      forall x ensures CountsOk(s1, x) {
        assert CountsOk(s, x);
        SentCounts(s, t, x);
      }
    } else if step.SendRejected? {
      FailureKeeps(s, s1, t, Failed, RejectedByNode, false);
    } else if step.SendError? && s.rows[t].attempts >= cfg.maxAttempts {
      FailureKeeps(s, s1, t, Failed, if step.unavailable then RpcUnavailable else BroadcastFailed, false);
    } else {
      forall x ensures CountsOk(s1, x) {
        assert CountsOk(s, x);
        SameLogSameCounts(s, s1, x);
      }
    }
  }

  lemma SentCounts(s: State, t: TransferId, x: TransferId)
    requires CountsOk(s, x) && t in s.rows && s.rows[t].status.Pending?
    ensures CountsOk(RecordSent(s, t), x)
  {
    EmitCounts(s.log, TxBroadcasted(t), x);
  }

  lemma CheckKeeps(s: State, cfg: Settings, aged: bool)
    requires Inv(s) && Enabled(s, cfg, CheckCommit(aged))
    ensures Inv(Next(s, cfg, CheckCommit(aged)))
  {
    var s1 := Next(s, cfg, CheckCommit(aged));
    var c := s.watch.value;
    var t := c.transfer;
    if s1.log == s.log {
      CheckWithoutEvent(s, cfg, aged);
      forall x ensures CountsOk(s1, x) {
        assert CountsOk(s, x);
        SameLogSameCounts(s, s1, x);
      }
    } else if s1.rows[t].status.Confirmed? {
      ConfirmKeeps(s, s1, t);
    } else {
      var code := if c.receipt.Some? then RevertedOnChain
                  else if c.status.Confirmed? then ChainReorg(s.rows[t].block)
                  else StuckPending;
      FailureKeeps(s, s1, t, s1.rows[t].status, code, code.ChainReorg?);
    }
  }

  /** A check that emits nothing leaves a broadcast row broadcast or requeued, and a confirmed row confirmed. */
  lemma CheckWithoutEvent(s: State, cfg: Settings, aged: bool)
    requires Inv(s) && Enabled(s, cfg, CheckCommit(aged)) && Next(s, cfg, CheckCommit(aged)).log == s.log
    ensures var t := s.watch.value.transfer;
            var r := Next(s, cfg, CheckCommit(aged)).rows[t];
            r.status == s.rows[t].status || (s.rows[t].status.Broadcasted? && r.status.Pending?)
  {
    var t := s.watch.value.transfer;
    assert CountsOk(s, t);
    NoneEmitted(s.log, t);
  }

  lemma StepKeeps(s: State, cfg: Settings, step: Step)
    requires Inv(s) && Enabled(s, cfg, step)
    ensures Inv(Next(s, cfg, step))
  {
    match step
    case AcceptRequest(_, _, _, _, _) => AcceptKeeps(s, cfg, step);
    case CheckCommit(aged) => CheckKeeps(s, cfg, aged);
    case BroadcasterCrash => KeepsCounts(s, Next(s, cfg, step));
    case WatcherCrash => KeepsCounts(s, Next(s, cfg, step));
    case CheckRead(_, _, _) => KeepsCounts(s, Next(s, cfg, step));
    case _ => BroadcasterKeeps(s, cfg, step);
  }

  lemma KeepsCounts(s: State, s1: State)
    requires (forall t :: CountsOk(s, t)) && s1.rows == s.rows && s1.log == s.log
    ensures forall t :: CountsOk(s1, t)
  {
    forall t ensures CountsOk(s1, t) {
      assert CountsOk(s, t);
    }
  }

  lemma {:induction false} RunKeeps(s: State, cfg: Settings, steps: seq<Step>)
    requires Inv(s) && ValidRun(s, cfg, steps)
    ensures Inv(Run(s, cfg, steps))
    decreases |steps|
  {
    if steps != [] {
      StepKeeps(s, cfg, steps[0]);
      RunKeeps(Next(s, cfg, steps[0]), cfg, steps[1..]);
    }
  }

  /** In every run, crashes included: at most one confirmation and one failure per transfer, and the row says which. */
  lemma EventsFollowRow(cfg: Settings, steps: seq<Step>, t: TransferId)
    requires ValidRun(EMPTY, cfg, steps)
    ensures var s := Run(EMPTY, cfg, steps);
            && Confirms(s, t) <= 1
            && Failures(s, t) == (if t in s.rows && Terminal(s.rows[t].status) then 1 else 0)
            && (t in s.rows && s.rows[t].status.Confirmed? ==> Confirms(s, t) == 1)
            && (t in s.rows && !s.rows[t].status.Confirmed? && !Terminal(s.rows[t].status) ==> Confirms(s, t) == 0)
  {
    RunKeeps(EMPTY, cfg, steps);
    assert CountsOk(Run(EMPTY, cfg, steps), t);
  }
}
