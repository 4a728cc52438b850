/** What the `was_confirmed` flag of a failure event tells. */
module FailureFlag {
  import opened Events
  import opened Outgoing

  predicate WasConfirmed(s: State, t: TransferId) { t in s.rows && s.rows[t].status.Confirmed? }

  /** The flag tells whether the row was CONFIRMED, except when a confirmed row turns out reverted. */
  lemma FlagTellsIff(s: State, cfg: Settings, step: Step, e: Event)
    requires Inv(s) && Enabled(s, cfg, step) && e in Next(s, cfg, step).log && e !in s.log && e.TxFailed?
    ensures e.wasConfirmed == WasConfirmed(s, e.transfer) <==>
            !(e.code.RevertedOnChain? && WasConfirmed(s, e.transfer))
  {
  }

  const CFG: Settings := Settings(1, 15, 5)
  const T: TransferId := 0

  function RowIn(status: Status, sent: bool, block: Option<Hash>): Row
  {
    Row(1, 2, 3, status, 1, sent, if block.Some? then Some(1) else None, block, if block.Some? then 1 else 0)
  }

  const SENT: State := State(map[T := RowIn(Broadcasted, true, None)], {}, None, [TxBroadcasted(T)])

  const SETTLED: State :=
    State(map[T := RowIn(Confirmed, true, Some(7))], {}, None, [TxBroadcasted(T), TxConfirmed(T)])

  const REVERTED: State :=
    State(map[T := RowIn(Failed, true, Some(8))], {}, None,
          [TxBroadcasted(T), TxConfirmed(T), TxFailed(T, RevertedOnChain, false)])

  ghost predicate Reachable(s: State)
  {
    exists steps :: ValidRun(EMPTY, CFG, steps) && Run(EMPTY, CFG, steps) == s
  }

  lemma ReachTo(s: State, step: Step, t: State)
    requires Reachable(s) && Enabled(s, CFG, step) && Next(s, CFG, step) == t
    ensures Reachable(t)
  {
    var steps :| ValidRun(EMPTY, CFG, steps) && Run(EMPTY, CFG, steps) == s;
    RunSnoc(EMPTY, CFG, steps, step);
  }

  lemma SentIsReachable()
    ensures Reachable(SENT)
  {
    assert ValidRun(EMPTY, CFG, []) && Run(EMPTY, CFG, []) == EMPTY;
    var created := State(map[T := RowIn(Created, false, None).(attempts := 0)], {}, None, []);
    ReachTo(EMPTY, AcceptRequest(T, 1, 2, 3, true), created);
    var held := State(map[T := RowIn(Pending, false, None)], {T}, None, []);
    ReachTo(created, ClaimRow(T), held);
    SendStep(held);
    ReachTo(held, SendOk(T), SENT);
  }

  lemma SendStep(s: State)
    requires s == State(map[T := RowIn(Pending, false, None)], {T}, None, [])
    ensures Enabled(s, CFG, SendOk(T)) && Next(s, CFG, SendOk(T)) == SENT
  {
    assert s.flight - {T} == {};
  }

  lemma CheckStep(s: State, receipt: Receipt, t: State)
    requires (s == SENT && receipt == Receipt(1, 7, true) && t == SETTLED)
             || (s == SETTLED && receipt == Receipt(1, 8, false) && t == REVERTED)
    ensures Enabled(s, CFG, CheckRead(T, 1, Some(receipt)))
    ensures var s1 := Next(s, CFG, CheckRead(T, 1, Some(receipt)));
            Enabled(s1, CFG, CheckCommit(false)) && Next(s1, CFG, CheckCommit(false)) == t
  {
  }

  /** A reachable CONFIRMED row whose transaction is found reverted is reported as never confirmed. */
  lemma RevertedAfterConfirmation()
    ensures Reachable(SETTLED) && WasConfirmed(SETTLED, T)
    ensures Reachable(REVERTED) && TxFailed(T, RevertedOnChain, false) in REVERTED.log
  {
    SentIsReachable();
    var settle, revert := Receipt(1, 7, true), Receipt(1, 8, false);
    CheckStep(SENT, settle, SETTLED);
    ReachTo(SENT, CheckRead(T, 1, Some(settle)), Next(SENT, CFG, CheckRead(T, 1, Some(settle))));
    ReachTo(Next(SENT, CFG, CheckRead(T, 1, Some(settle))), CheckCommit(false), SETTLED);
    CheckStep(SETTLED, revert, REVERTED);
    ReachTo(SETTLED, CheckRead(T, 1, Some(revert)), Next(SETTLED, CFG, CheckRead(T, 1, Some(revert))));
    ReachTo(Next(SETTLED, CFG, CheckRead(T, 1, Some(revert))), CheckCommit(false), REVERTED);
  }
}
