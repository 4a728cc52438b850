/** What a whole tick of each outgoing worker makes of every row, and which events it emits. */
module OutgoingTicks {
  import opened Events
  import opened Outgoing
  import opened Causes

  /** What a send attempt came to: the node took it, refused it for good, or could not be asked. */
  datatype Answer = Sent | NodeRejected | Trouble(unavailable: bool)

  /** What a check finds: the node's receipt, and whether the pending timeout has passed. */
  datatype Finding = Finding(receipt: Option<Receipt>, aged: bool)

  function SendStep(t: TransferId, a: Answer): Step
  {
    match a
    case Sent => SendOk(t)
    case NodeRejected => SendRejected(t)
    case Trouble(unavailable) => SendError(t, unavailable)
  }

  function Claims(picked: seq<TransferId>): seq<Step>
  {
    if picked == [] then [] else Claims(picked[..|picked| - 1]) + [ClaimRow(picked[|picked| - 1])]
  }

  function Sends(picked: seq<TransferId>, answers: TransferId -> Answer): seq<Step>
  {
    if picked == [] then []
    else Sends(picked[..|picked| - 1], answers) + [SendStep(picked[|picked| - 1], answers(picked[|picked| - 1]))]
  }

  function Checks(ids: seq<TransferId>, head: nat, findings: TransferId -> Finding): seq<Step>
  {
    if ids == [] then []
    else
      var t := ids[|ids| - 1];
      Checks(ids[..|ids| - 1], head, findings) +
      [CheckRead(t, head, findings(t).receipt), CheckCommit(findings(t).aged)]
  }

  ghost predicate Distinct(ids: seq<TransferId>) { forall i, j :: 0 <= i < j < |ids| ==> ids[i] != ids[j] }

  // ---- one row ----

  predicate SameTerms(a: Row, b: Row) { a.sender == b.sender && a.recipient == b.recipient && a.amount == b.amount }

  /** A send attempt of a row claimed for the `before.attempts + 1`st time. */
  predicate SendOutcome(cfg: Settings, before: Row, a: Answer, after: Row)
  {
    && SameTerms(before, after) && after.number == before.number && after.block == before.block
    && after.confirmations == before.confirmations && after.attempts == before.attempts + 1
    && match a
       case Sent => after.status == Broadcasted && after.sent
       case NodeRejected => after.status == Failed && after.sent == before.sent
       case Trouble(_) =>
         && after.sent == before.sent
         && after.status == if before.attempts + 1 < cfg.maxAttempts then Pending else Failed
  }

  function SendEvent(cfg: Settings, t: TransferId, before: Row, a: Answer): Option<Event>
  {
    match a
    case Sent => Some(TxBroadcasted(t))
    case NodeRejected => Some(TxFailed(t, RejectedByNode, false))
    case Trouble(unavailable) =>
      if before.attempts + 1 < cfg.maxAttempts then None
      else Some(TxFailed(t, if unavailable then RpcUnavailable else BroadcastFailed, false))
  }

  /** A check of a BROADCASTED or CONFIRMED row that carries a transaction hash. */
  predicate CheckOutcome(cfg: Settings, head: nat, before: Row, f: Finding, after: Row)
  {
    && SameTerms(before, after) && after.attempts == before.attempts && after.sent == before.sent
    && match f.receipt
       case None =>
         && after.number == before.number && after.block == before.block
         && after.confirmations == before.confirmations
         && after.status == (if before.status.Confirmed? then Reorged
                             else if !f.aged then Broadcasted
                             else if before.attempts < cfg.maxAttempts then Pending
                             else Failed)
       case Some(r) =>
         && after.number == Some(r.number) && after.block == Some(r.hash)
         && after.confirmations == (if r.number <= head then head - r.number + 1 else 0)
         && after.status == (if !r.ok then Failed
                             else if Deep(cfg.required, head, r.number) then Confirmed
                             else before.status)
  }

  function CheckEvent(cfg: Settings, head: nat, t: TransferId, before: Row, f: Finding): Option<Event>
  {
    match f.receipt
    case None =>
      if before.status.Confirmed? then Some(TxFailed(t, ChainReorg(before.block), true))
      else if f.aged && before.attempts >= cfg.maxAttempts then Some(TxFailed(t, StuckPending, false))
      else None
    case Some(r) =>
      if !r.ok then Some(TxFailed(t, RevertedOnChain, false))
      else if before.status.Broadcasted? && Deep(cfg.required, head, r.number) then Some(TxConfirmed(t))
      else None
  }

  // ---- the log of a tick ----

  /** The log grew by exactly the events of the rows in `ids`. */
  ghost predicate Logged(
      before: seq<Event>, after: seq<Event>, ids: seq<TransferId>, event: TransferId -> Option<Event>)
  {
    && before <= after
    && (forall t :: t in ids && event(t).Some? ==> event(t).value in after)
    && (forall e :: e in after ==> e in before || exists t :: t in ids && event(t) == Some(e))
  }

  lemma LoggedMore(
      before: seq<Event>, mid: seq<Event>, after: seq<Event>, ids: seq<TransferId>, event: TransferId -> Option<Event>)
    requires ids != [] && Logged(before, mid, ids[..|ids| - 1], event)
    requires Logged(mid, after, [ids[|ids| - 1]], event)
    ensures Logged(before, after, ids, event)
  {
    var front, last := ids[..|ids| - 1], ids[|ids| - 1];
    assert ids == front + [last];
    forall e | e in after ensures e in before || exists t :: t in ids && event(t) == Some(e) {
      if e in mid && e !in before {
        var t :| t in front && event(t) == Some(e);
        assert t in ids;
      } else if e !in mid {
        assert last in ids;
      }
    }
  }

  lemma EnqueueLogs(log: seq<Event>, t: TransferId, event: TransferId -> Option<Event>)
    requires event(t).Some? ==> event(t).value in Enqueue(log, event(t).value)
    ensures Logged(log, if event(t).Some? then Enqueue(log, event(t).value) else log, [t], event)
  {
  }

  // ---- a tick of the broadcaster ----

  /** Of `before`, the rows in `picked` are sent and the others as they were. */
  ghost predicate AllSent(
      cfg: Settings, before: map<TransferId, Row>, after: map<TransferId, Row>, picked: seq<TransferId>,
      answers: TransferId -> Answer)
  {
    && after.Keys == before.Keys
    && forall t :: t in before ==>
         if t in picked then SendOutcome(cfg, before[t], answers(t), after[t]) else after[t] == before[t]
  }

  /** Rows as they are once claimed: pending, with one attempt more. */
  ghost predicate AllClaimed(before: map<TransferId, Row>, after: map<TransferId, Row>, picked: seq<TransferId>)
  {
    && after.Keys == before.Keys
    && forall t :: t in before ==>
         if t in picked then after[t] == before[t].(status := Pending, attempts := before[t].attempts + 1)
         else after[t] == before[t]
  }

  function SendEvents(cfg: Settings, rows: map<TransferId, Row>, answers: TransferId -> Answer)
    : TransferId -> Option<Event>
  {
    t => if t in rows then SendEvent(cfg, t, rows[t], answers(t)) else None
  }

  /** The send of one claimed row. */
  lemma SendTells(s: State, cfg: Settings, t: TransferId, before: Row, a: Answer)
    requires Inv(s) && t in s.flight
    requires s.rows[t] == before.(status := Pending, attempts := before.attempts + 1)
    ensures var s1 := Next(s, cfg, SendStep(t, a));
            && s1.rows.Keys == s.rows.Keys && (forall x :: x in s.rows && x != t ==> s1.rows[x] == s.rows[x])
            && SendOutcome(cfg, before, a, s1.rows[t])
            && s1.flight == s.flight - {t}
            && s1.log == (var e := SendEvent(cfg, t, before, a);
                          if e.Some? then Enqueue(s.log, e.value) else s.log)
  {
  }

  /** A failure is always a first one, and a broadcast reported before is the same event. */
  lemma SendEventEnters(s: State, cfg: Settings, t: TransferId, before: Row, a: Answer)
    requires Inv(s) && t in s.flight
    ensures var e := SendEvent(cfg, t, before, a); e.Some? ==> e.value in Enqueue(s.log, e.value)
  {
    var e := SendEvent(cfg, t, before, a);
    if e.Some? && e.value.TxFailed? {
      assert CountsOk(s, t);
      FirstIsNew(s.log, e.value);
    } else if e.Some? && Emitted(s.log, Id(e.value)) {
      var x :| x in s.log && Id(x) == BroadcastedId(t);
      assert x == TxBroadcasted(t);
    }
  }

  lemma SendLogs(
      s: State, cfg: Settings, t: TransferId, before: Row, a: Answer, events: TransferId -> Option<Event>)
    requires Inv(s) && t in s.flight && events(t) == SendEvent(cfg, t, before, a)
    requires s.rows[t] == before.(status := Pending, attempts := before.attempts + 1)
    ensures var s1 := Next(s, cfg, SendStep(t, a));
            && Inv(s1) && s1.rows.Keys == s.rows.Keys && (forall x :: x in s.rows && x != t ==> s1.rows[x] == s.rows[x])
            && SendOutcome(cfg, before, a, s1.rows[t])
            && s1.flight == s.flight - {t}
            && Logged(s.log, s1.log, [t], events)
  {
    SendTells(s, cfg, t, before, a);
    SendEventEnters(s, cfg, t, before, a);
    EnqueueLogs(s.log, t, events);
    StepKeeps(s, cfg, SendStep(t, a));
  }

  /** From `s` to `t` the claimed rows in `picked` were sent, nothing else changed, and the log says so. */
  ghost predicate SendsDone(
      cfg: Settings, before: map<TransferId, Row>, s: State, t: State, picked: seq<TransferId>,
      answers: TransferId -> Answer)
  {
    && t.rows.Keys == s.rows.Keys
    && (forall x :: x in s.rows && x in before ==>
          if x in picked then SendOutcome(cfg, before[x], answers(x), t.rows[x]) else t.rows[x] == s.rows[x])
    && (forall x :: x in t.flight <==> x in s.flight && x !in picked)
    && Logged(s.log, t.log, picked, SendEvents(cfg, before, answers))
  }

  lemma SendsDoneMore(
      cfg: Settings, before: map<TransferId, Row>, s: State, mid: State, t: State, picked: seq<TransferId>,
      answers: TransferId -> Answer)
    requires picked != [] && Distinct(picked) && s.rows.Keys == before.Keys
    requires SendsDone(cfg, before, s, mid, picked[..|picked| - 1], answers)
    requires var last := picked[|picked| - 1];
             && last in mid.rows && t.rows.Keys == mid.rows.Keys
             && (forall x :: x in mid.rows && x != last ==> t.rows[x] == mid.rows[x])
             && SendOutcome(cfg, before[last], answers(last), t.rows[last])
             && t.flight == mid.flight - {last}
             && Logged(mid.log, t.log, [last], SendEvents(cfg, before, answers))
    ensures SendsDone(cfg, before, s, t, picked, answers)
  {
    var front, last := picked[..|picked| - 1], picked[|picked| - 1];
    assert picked == front + [last] && last !in front;
    LoggedMore(s.log, mid.log, t.log, picked, SendEvents(cfg, before, answers));
  }

  lemma SendsTellMore(
      s: State, cfg: Settings, before: map<TransferId, Row>, mid: State, picked: seq<TransferId>,
      answers: TransferId -> Answer)
    requires picked != [] && Distinct(picked) && s.rows.Keys == before.Keys
    requires ValidRun(s, cfg, Sends(picked[..|picked| - 1], answers))
    requires mid == Run(s, cfg, Sends(picked[..|picked| - 1], answers)) && Inv(mid)
    requires SendsDone(cfg, before, s, mid, picked[..|picked| - 1], answers)
    requires var last := picked[|picked| - 1];
             && last in s.flight && last in before
             && s.rows[last] == before[last].(status := Pending, attempts := before[last].attempts + 1)
    ensures ValidRun(s, cfg, Sends(picked, answers))
    ensures var t := Run(s, cfg, Sends(picked, answers));
            Inv(t) && SendsDone(cfg, before, s, t, picked, answers)
  {
    var front, last := picked[..|picked| - 1], picked[|picked| - 1];
    assert picked == front + [last] && last !in front;
    SendLogs(mid, cfg, last, before[last], answers(last), SendEvents(cfg, before, answers));
    RunSnoc(s, cfg, Sends(front, answers), SendStep(last, answers(last)));
    SendsDoneMore(cfg, before, s, mid, Next(mid, cfg, SendStep(last, answers(last))), picked, answers);
  }

  lemma {:induction false} SendsTell(
      s: State, cfg: Settings, before: map<TransferId, Row>, picked: seq<TransferId>, answers: TransferId -> Answer,
      all: seq<TransferId>)
    requires Inv(s) && AllClaimed(before, s.rows, all) && Distinct(picked)
    requires forall t :: t in picked ==> t in s.flight && t in all
    ensures ValidRun(s, cfg, Sends(picked, answers))
    ensures var t := Run(s, cfg, Sends(picked, answers));
            Inv(t) && SendsDone(cfg, before, s, t, picked, answers)
  {
    if picked != [] {
      var front, last := picked[..|picked| - 1], picked[|picked| - 1];
      assert picked == front + [last] && last !in front && last in picked;
      SendsTell(s, cfg, before, front, answers, all);
      var mid := Run(s, cfg, Sends(front, answers));
      SendsTellMore(s, cfg, before, mid, picked, answers);
    }
  }

  // ---- a tick of the watcher ----

  ghost predicate AllChecked(
      cfg: Settings, head: nat, before: map<TransferId, Row>, after: map<TransferId, Row>, ids: seq<TransferId>,
      findings: TransferId -> Finding)
  {
    && after.Keys == before.Keys
    && forall t :: t in before ==>
         if t in ids then CheckOutcome(cfg, head, before[t], findings(t), after[t]) else after[t] == before[t]
  }

  function CheckEvents(cfg: Settings, head: nat, rows: map<TransferId, Row>, findings: TransferId -> Finding)
    : TransferId -> Option<Event>
  {
    t => if t in rows then CheckEvent(cfg, head, t, rows[t], findings(t)) else None
  }

  lemma CheckTells(s: State, cfg: Settings, head: nat, t: TransferId, f: Finding)
    requires Inv(s) && s.watch.None? && Candidate(s, cfg, t, head)
    ensures var read := Next(s, cfg, CheckRead(t, head, f.receipt));
            var s1 := Next(read, cfg, CheckCommit(f.aged));
            && s1.rows.Keys == s.rows.Keys && (forall x :: x in s.rows && x != t ==> s1.rows[x] == s.rows[x])
            && CheckOutcome(cfg, head, s.rows[t], f, s1.rows[t])
            && s1.flight == s.flight && s1.watch.None?
            && s1.log == (var e := CheckEvent(cfg, head, t, s.rows[t], f);
                          if e.Some? then Enqueue(s.log, e.value) else s.log)
  {
  }

  /** What a check emits was never emitted before. */
  lemma CheckEventEnters(s: State, cfg: Settings, head: nat, t: TransferId, f: Finding)
    requires Inv(s) && Candidate(s, cfg, t, head)
    ensures var e := CheckEvent(cfg, head, t, s.rows[t], f); e.Some? ==> e.value in Enqueue(s.log, e.value)
  {
    var e := CheckEvent(cfg, head, t, s.rows[t], f);
    if e.Some? {
      assert CountsOk(s, t);
      FirstIsNew(s.log, e.value);
    }
  }

  lemma CheckLogs(
      s: State, cfg: Settings, head: nat, t: TransferId, f: Finding, events: TransferId -> Option<Event>)
    requires Inv(s) && s.watch.None? && Candidate(s, cfg, t, head)
    requires events(t) == CheckEvent(cfg, head, t, s.rows[t], f)
    ensures var s1 := Next(Next(s, cfg, CheckRead(t, head, f.receipt)), cfg, CheckCommit(f.aged));
            && s1.rows.Keys == s.rows.Keys && (forall x :: x in s.rows && x != t ==> s1.rows[x] == s.rows[x])
            && CheckOutcome(cfg, head, s.rows[t], f, s1.rows[t])
            && s1.flight == s.flight && s1.watch.None?
            && Logged(s.log, s1.log, [t], events)
  {
    CheckTells(s, cfg, head, t, f);
    CheckEventEnters(s, cfg, head, t, f);
    EnqueueLogs(s.log, t, events);
  }

  /** From `s` to `t` the rows in `ids` were checked, nothing else changed, and the log says so. */
  ghost predicate ChecksDone(
      cfg: Settings, head: nat, s: State, t: State, ids: seq<TransferId>, findings: TransferId -> Finding)
  {
    && t.watch.None? && t.flight == s.flight
    && AllChecked(cfg, head, s.rows, t.rows, ids, findings)
    && Logged(s.log, t.log, ids, CheckEvents(cfg, head, s.rows, findings))
  }

  lemma ChecksDoneMore(
      cfg: Settings, head: nat, s: State, mid: State, t: State, ids: seq<TransferId>, findings: TransferId -> Finding)
    requires ids != [] && Distinct(ids) && ChecksDone(cfg, head, s, mid, ids[..|ids| - 1], findings)
    requires var last := ids[|ids| - 1];
             && last in mid.rows && t.rows.Keys == mid.rows.Keys
             && (forall x :: x in mid.rows && x != last ==> t.rows[x] == mid.rows[x])
             && CheckOutcome(cfg, head, s.rows[last], findings(last), t.rows[last])
             && t.watch.None? && t.flight == mid.flight
             && Logged(mid.log, t.log, [last], CheckEvents(cfg, head, s.rows, findings))
    ensures ChecksDone(cfg, head, s, t, ids, findings)
  {
    var front, last := ids[..|ids| - 1], ids[|ids| - 1];
    assert ids == front + [last] && last !in front;
    LoggedMore(s.log, mid.log, t.log, ids, CheckEvents(cfg, head, s.rows, findings));
  }

  lemma {:induction false} ChecksTell(
      s: State, cfg: Settings, head: nat, ids: seq<TransferId>, findings: TransferId -> Finding)
    requires Inv(s) && s.watch.None? && Distinct(ids) && forall t :: t in ids ==> Candidate(s, cfg, t, head)
    ensures ValidRun(s, cfg, Checks(ids, head, findings))
    ensures var t := Run(s, cfg, Checks(ids, head, findings));
            Inv(t) && ChecksDone(cfg, head, s, t, ids, findings)
  {
    if ids != [] {
      var front, last := ids[..|ids| - 1], ids[|ids| - 1];
      assert ids == front + [last] && last !in front;
      ChecksTell(s, cfg, head, front, findings);
      var mid := Run(s, cfg, Checks(front, head, findings));
      assert last in ids && Candidate(s, cfg, last, head);
      ChecksTellMore(s, cfg, head, mid, ids, findings);
    }
  }

  lemma ChecksTellMore(
      s: State, cfg: Settings, head: nat, mid: State, ids: seq<TransferId>, findings: TransferId -> Finding)
    requires ids != [] && Distinct(ids) && Candidate(s, cfg, ids[|ids| - 1], head)
    requires ValidRun(s, cfg, Checks(ids[..|ids| - 1], head, findings))
    requires mid == Run(s, cfg, Checks(ids[..|ids| - 1], head, findings)) && Inv(mid)
    requires ChecksDone(cfg, head, s, mid, ids[..|ids| - 1], findings)
    ensures ValidRun(s, cfg, Checks(ids, head, findings))
    ensures var t := Run(s, cfg, Checks(ids, head, findings));
            Inv(t) && ChecksDone(cfg, head, s, t, ids, findings)
  {
    var front, last := ids[..|ids| - 1], ids[|ids| - 1];
    assert ids == front + [last] && last !in front;
    CheckLogs(mid, cfg, head, last, findings(last), CheckEvents(cfg, head, s.rows, findings));
    CheckSnoc(s, cfg, head, ids, findings);
    ChecksDoneMore(cfg, head, s, mid, Run(s, cfg, Checks(ids, head, findings)), ids, findings);
  }

  /** One check more is two steps more. */
  lemma CheckSnoc(s: State, cfg: Settings, head: nat, ids: seq<TransferId>, findings: TransferId -> Finding)
    requires ids != [] && ValidRun(s, cfg, Checks(ids[..|ids| - 1], head, findings))
    requires var mid := Run(s, cfg, Checks(ids[..|ids| - 1], head, findings));
             Inv(mid) && mid.watch.None? && Candidate(mid, cfg, ids[|ids| - 1], head)
    ensures ValidRun(s, cfg, Checks(ids, head, findings))
    ensures var mid := Run(s, cfg, Checks(ids[..|ids| - 1], head, findings));
            var f := findings(ids[|ids| - 1]);
            var read := Next(mid, cfg, CheckRead(ids[|ids| - 1], head, f.receipt));
            Run(s, cfg, Checks(ids, head, findings)) == Next(read, cfg, CheckCommit(f.aged))
    ensures Inv(Run(s, cfg, Checks(ids, head, findings)))
  {
    var done, t := Checks(ids[..|ids| - 1], head, findings), ids[|ids| - 1];
    var read, commit := CheckRead(t, head, findings(t).receipt), CheckCommit(findings(t).aged);
    var mid := Run(s, cfg, done);
    RunSnoc(s, cfg, done, read);
    RunSnoc(s, cfg, done + [read], commit);
    assert Checks(ids, head, findings) == done + [read] + [commit];
    StepKeeps(mid, cfg, read);
    StepKeeps(Next(mid, cfg, read), cfg, commit);
  }
}
