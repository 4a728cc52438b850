/** The retry budget of an outgoing transaction. */
module OutgoingBudget {
  import opened Events
  import opened Outgoing

  /** A first attempt is always made, whatever the setting. */
  function Budget(cfg: Settings): nat { if cfg.maxAttempts >= 1 then cfg.maxAttempts else 1 }

  /** How often the broadcaster crashed while it held the transfer. Other crashes cost nothing. */
  function Crashes(s: State, cfg: Settings, steps: seq<Step>, t: TransferId): nat
    requires ValidRun(s, cfg, steps)
    decreases |steps|
  {
    if steps == [] then 0 else Costs(s, steps[0], t) + Crashes(Next(s, cfg, steps[0]), cfg, steps[1..], t)
  }

  function Costs(s: State, step: Step, t: TransferId): nat
  {
    if step.BroadcasterCrash? && t in s.flight then 1 else 0
  }

  /** The row after `crashes` crashes that cost it an attempt. */
  ghost predicate WithinBudget(s: State, cfg: Settings, t: TransferId, crashes: nat)
  {
    t in s.rows ==>
      var r := s.rows[t];
      && r.attempts <= Budget(cfg) + crashes
      && (r.status.Created? ==> r.attempts == 0)
      && (r.status.Pending? && t !in s.flight ==> r.attempts < Budget(cfg) + crashes)
  }

  /** No step lets `attempts` exceed the budget by more than the crashes that cost it one. */
  lemma StepStaysWithinBudget(s: State, cfg: Settings, step: Step, t: TransferId, crashes: nat)
    requires Inv(s) && WithinBudget(s, cfg, t, crashes) && Enabled(s, cfg, step)
    ensures WithinBudget(Next(s, cfg, step), cfg, t, crashes + Costs(s, step, t))
  {
    if step.CheckCommit? && s.watch.value.transfer == t {
      var r := s.rows[t];
      assert !r.status.Created? && !r.status.Pending?;
    }
  }

  lemma {:induction false} RunStaysWithinBudget(
      s: State, cfg: Settings, steps: seq<Step>, t: TransferId, crashes: nat)
    requires Inv(s) && WithinBudget(s, cfg, t, crashes) && ValidRun(s, cfg, steps)
    ensures WithinBudget(Run(s, cfg, steps), cfg, t, crashes + Crashes(s, cfg, steps, t))
    decreases |steps|
  {
    if steps != [] {
      StepKeeps(s, cfg, steps[0]);
      StepStaysWithinBudget(s, cfg, steps[0], t, crashes);
      RunStaysWithinBudget(Next(s, cfg, steps[0]), cfg, steps[1..], t, crashes + Costs(s, steps[0], t));
    }
  }

  /** In every run the attempts exceed the budget by at most the crashes that hit the transfer in flight. */
  lemma AttemptsAndCrashes(cfg: Settings, steps: seq<Step>, t: TransferId)
    requires ValidRun(EMPTY, cfg, steps)
    ensures var s := Run(EMPTY, cfg, steps);
            t in s.rows ==> s.rows[t].attempts <= Budget(cfg) + Crashes(EMPTY, cfg, steps, t)
  {
    RunStaysWithinBudget(EMPTY, cfg, steps, t, 0);
  }

  /** `attempts` never exceeds `broadcast_max_attempts` unless a crash hits the transfer in flight. */
  lemma AttemptsAreBounded(cfg: Settings, steps: seq<Step>, t: TransferId)
    requires ValidRun(EMPTY, cfg, steps) && Crashes(EMPTY, cfg, steps, t) == 0 && cfg.maxAttempts >= 1
    ensures var s := Run(EMPTY, cfg, steps); t in s.rows ==> s.rows[t].attempts <= cfg.maxAttempts
  {
    AttemptsAndCrashes(cfg, steps, t);
  }

  // ---- the bound is attained for every number of crashes ----

  lemma {:induction false} CrashesSnoc(s: State, cfg: Settings, steps: seq<Step>, step: Step, t: TransferId)
    requires ValidRun(s, cfg, steps) && Enabled(Run(s, cfg, steps), cfg, step)
    ensures ValidRun(s, cfg, steps + [step])
    ensures Run(s, cfg, steps + [step]) == Next(Run(s, cfg, steps), cfg, step)
    ensures Crashes(s, cfg, steps + [step], t) == Crashes(s, cfg, steps, t) + Costs(Run(s, cfg, steps), step, t)
    decreases |steps|
  {
    RunSnoc(s, cfg, steps, step);
    if steps == [] {
      assert ([] + [step])[1..] == [];
    } else {
      CrashesSnoc(Next(s, cfg, steps[0]), cfg, steps[1..], step, t);
      assert (steps + [step])[1..] == steps[1..] + [step];
    }
  }

  /** The transfer was claimed `n` times, and the broadcaster does not hold it. */
  function Tried(t: TransferId, n: nat): State
  {
    var r := Row(0, 0, 1, if n == 0 then Created else Pending, n, false, None, None, 0);
    State(map[t := r], {}, None, [])
  }

  function Held(t: TransferId, n: nat): State
  {
    State(map[t := Row(0, 0, 1, Pending, n, false, None, None, 0)], {t}, None, [])
  }

  lemma ClaimTried(cfg: Settings, t: TransferId, n: nat)
    ensures Enabled(Tried(t, n), cfg, ClaimRow(t)) && Next(Tried(t, n), cfg, ClaimRow(t)) == Held(t, n + 1)
  {
  }

  lemma ReleaseHeld(cfg: Settings, t: TransferId, n: nat)
    requires n >= 1
    ensures Next(Held(t, n), cfg, BroadcasterCrash) == Tried(t, n) && Costs(Held(t, n), BroadcasterCrash, t) == 1
    ensures Enabled(Held(t, n), cfg, SendError(t, true))
    ensures n < cfg.maxAttempts ==> Next(Held(t, n), cfg, SendError(t, true)) == Tried(t, n)
  {
    assert Held(t, n).rows[t := Held(t, n).rows[t].(status := Pending)] == Held(t, n).rows;
  }

  /** One more attempt that ends in `release`: a send error or a crash. */
  lemma TryAgain(cfg: Settings, t: TransferId, steps: seq<Step>, n: nat, release: Step) returns (more: seq<Step>)
    requires ValidRun(EMPTY, cfg, steps) && Run(EMPTY, cfg, steps) == Tried(t, n)
    requires release == BroadcasterCrash || (release == SendError(t, true) && n + 1 < cfg.maxAttempts)
    ensures ValidRun(EMPTY, cfg, more) && Run(EMPTY, cfg, more) == Tried(t, n + 1)
    ensures Crashes(EMPTY, cfg, more, t) ==
            Crashes(EMPTY, cfg, steps, t) + if release.BroadcasterCrash? then 1 else 0
  {
    ClaimTried(cfg, t, n);
    CrashesSnoc(EMPTY, cfg, steps, ClaimRow(t), t);
    ReleaseHeld(cfg, t, n + 1);
    CrashesSnoc(EMPTY, cfg, steps + [ClaimRow(t)], release, t);
    more := steps + [ClaimRow(t)] + [release];
  }

  /** Attempts that fail on the network use up all of the budget but one. */
  lemma {:induction false} RetryRun(cfg: Settings, t: TransferId, n: nat) returns (steps: seq<Step>)
    requires n < Budget(cfg)
    ensures ValidRun(EMPTY, cfg, steps) && Run(EMPTY, cfg, steps) == Tried(t, n) && Crashes(EMPTY, cfg, steps, t) == 0
  {
    if n == 0 {
      var accept := AcceptRequest(t, 0, 0, 1, true);
      CrashesSnoc(EMPTY, cfg, [], accept, t);
      steps := [] + [accept];
    } else {
      var earlier := RetryRun(cfg, t, n - 1);
      steps := TryAgain(cfg, t, earlier, n - 1, SendError(t, true));
    }
  }

  lemma {:induction false} CrashRun(cfg: Settings, t: TransferId, k: nat) returns (steps: seq<Step>)
    ensures ValidRun(EMPTY, cfg, steps) && Run(EMPTY, cfg, steps) == Tried(t, Budget(cfg) - 1 + k)
    ensures Crashes(EMPTY, cfg, steps, t) == k
  {
    if k == 0 {
      steps := RetryRun(cfg, t, Budget(cfg) - 1);
    } else {
      var earlier := CrashRun(cfg, t, k - 1);
      steps := TryAgain(cfg, t, earlier, Budget(cfg) - 2 + k, BroadcasterCrash);
    }
  }

  /** The bound is exact: for every `k` a run with `k` such crashes attains `Budget + k` attempts. */
  lemma BoundIsAttained(cfg: Settings, t: TransferId, k: nat) returns (steps: seq<Step>)
    ensures ValidRun(EMPTY, cfg, steps) && Crashes(EMPTY, cfg, steps, t) == k
    ensures t in Run(EMPTY, cfg, steps).rows && Run(EMPTY, cfg, steps).rows[t].attempts == Budget(cfg) + k
  {
    var earlier := CrashRun(cfg, t, k);
    ClaimTried(cfg, t, Budget(cfg) - 1 + k);
    CrashesSnoc(EMPTY, cfg, earlier, ClaimRow(t), t);
    steps := earlier + [ClaimRow(t)];
  }

  // ---- the measure ----

  /** Lexicographic in (remaining attempts, phase), as one number. A terminal row measures 0. */
  function Measure(s: State, cfg: Settings, t: TransferId): int
  {
    if t !in s.rows then 3 * Budget(cfg) + 1
    else
      var r := s.rows[t];
      var left := 3 * (Budget(cfg) - r.attempts);
      match r.status
      case Created => left
      case Pending => if t in s.flight then left + 2 else left
      case Broadcasted => left + 1
      case _ => 0
  }

  /** The step moves the row: its status, its attempts, or whether the broadcaster holds it. */
  predicate Acts(s: State, cfg: Settings, step: Step, t: TransferId)
    requires Enabled(s, cfg, step)
  {
    var s1 := Next(s, cfg, step);
    || (t in s.rows) != (t in s1.rows)
    || (t in s.flight) != (t in s1.flight)
    || (t in s.rows && t in s1.rows
        && (s.rows[t].status != s1.rows[t].status || s.rows[t].attempts != s1.rows[t].attempts))
  }

  /** The node never shows a receipt for the transfer. */
  predicate NoReceiptYet(s: State, t: TransferId)
  {
    && (s.watch.Some? && s.watch.value.transfer == t ==> s.watch.value.receipt.None?)
    && (t in s.rows ==> !s.rows[t].status.Confirmed? && !s.rows[t].status.Reorged?)
  }

  predicate ShowsNoReceipt(step: Step, t: TransferId)
  {
    step.CheckRead? && step.transfer == t ==> step.receipt.None?
  }

  /** Every acting step uses up the measure; no other step touches it. */
  lemma MeasureDecreases(s: State, cfg: Settings, step: Step, t: TransferId)
    requires Inv(s) && WithinBudget(s, cfg, t, 0) && Enabled(s, cfg, step) && Costs(s, step, t) == 0
    requires NoReceiptYet(s, t) && ShowsNoReceipt(step, t)
    ensures var s1 := Next(s, cfg, step);
            && NoReceiptYet(s1, t)
            && Measure(s1, cfg, t) >= 0
            && (Acts(s, cfg, step, t) ==> Measure(s1, cfg, t) < Measure(s, cfg, t))
            && (!Acts(s, cfg, step, t) ==> Measure(s1, cfg, t) == Measure(s, cfg, t))
            && (Measure(s1, cfg, t) == 0 ==> t in s1.rows && s1.rows[t].status.Failed?)
  {
    StepStaysWithinBudget(s, cfg, step, t, 0);
  }

  function ActingSteps(s: State, cfg: Settings, steps: seq<Step>, t: TransferId): nat
    requires ValidRun(s, cfg, steps)
    decreases |steps|
  {
    if steps == [] then 0
    else (if Acts(s, cfg, steps[0], t) then 1 else 0) + ActingSteps(Next(s, cfg, steps[0]), cfg, steps[1..], t)
  }

  lemma {:induction false} ActingIsBounded(s: State, cfg: Settings, steps: seq<Step>, t: TransferId)
    requires Inv(s) && WithinBudget(s, cfg, t, 0) && NoReceiptYet(s, t)
    requires ValidRun(s, cfg, steps) && Crashes(s, cfg, steps, t) == 0
    requires forall i :: 0 <= i < |steps| ==> ShowsNoReceipt(steps[i], t)
    requires Measure(s, cfg, t) >= 0
    ensures var s1 := Run(s, cfg, steps);
            && 0 <= Measure(s1, cfg, t) <= Measure(s, cfg, t) - ActingSteps(s, cfg, steps, t)
            && (steps != [] && Measure(s1, cfg, t) == 0 ==> t in s1.rows && s1.rows[t].status.Failed?)
    decreases |steps|
  {
    if steps != [] {
      MeasureDecreases(s, cfg, steps[0], t);
      StepKeeps(s, cfg, steps[0]);
      StepStaysWithinBudget(s, cfg, steps[0], t, 0);
      ActingIsBounded(Next(s, cfg, steps[0]), cfg, steps[1..], t);
      if |steps| == 1 {
        assert steps[1..] == [];
      }
    }
  }

  /**
    * In a run in which no crash hits the transfer in flight and no receipt for it ever appears, at most
    * 3 * budget + 1 steps act on it, and once that many have, it is FAILED.
    */
  lemma SilentTransferFails(cfg: Settings, steps: seq<Step>, t: TransferId)
    requires ValidRun(EMPTY, cfg, steps) && Crashes(EMPTY, cfg, steps, t) == 0
    requires forall i :: 0 <= i < |steps| ==> ShowsNoReceipt(steps[i], t)
    ensures ActingSteps(EMPTY, cfg, steps, t) <= 3 * Budget(cfg) + 1
    ensures ActingSteps(EMPTY, cfg, steps, t) == 3 * Budget(cfg) + 1 ==>
              t in Run(EMPTY, cfg, steps).rows && Run(EMPTY, cfg, steps).rows[t].status.Failed?
  {
    ActingIsBounded(EMPTY, cfg, steps, t);
  }

  // ---- a row that is not final can always move ----

  /** A broadcast row carries its transaction hash. */
  ghost predicate SentOk(s: State)
  {
    forall t :: t in s.rows && s.rows[t].status.Broadcasted? ==> s.rows[t].sent
  }

  lemma StepKeepsSent(s: State, cfg: Settings, step: Step)
    requires Inv(s) && SentOk(s) && Enabled(s, cfg, step)
    ensures SentOk(Next(s, cfg, step))
  {
  }

  lemma {:induction false} RunKeepsSent(s: State, cfg: Settings, steps: seq<Step>)
    requires Inv(s) && SentOk(s) && ValidRun(s, cfg, steps)
    ensures SentOk(Run(s, cfg, steps)) && Inv(Run(s, cfg, steps))
    decreases |steps|
  {
    if steps != [] {
      StepKeeps(s, cfg, steps[0]);
      StepKeepsSent(s, cfg, steps[0]);
      RunKeepsSent(Next(s, cfg, steps[0]), cfg, steps[1..]);
    }
  }

  /** The finality filter lists the row, and no receipt for it has been read. */
  predicate AwaitsReceipt(s: State, cfg: Settings, t: TransferId, head: nat)
    requires t in s.rows
  {
    && (s.rows[t].number.None? || s.rows[t].number.value > head - cfg.finality)
    && !(s.watch.Some? && s.watch.value.transfer == t && s.watch.value.receipt.Some?)
  }

  /** The check in progress, if there is one for another row, is committed; then the row is checked. */
  function CheckSteps(s: State, t: TransferId, head: nat): seq<Step>
  {
    if s.watch.None? then [CheckRead(t, head, None), CheckCommit(true)]
    else if s.watch.value.transfer == t then [CheckCommit(true)]
    else [CheckCommit(false), CheckRead(t, head, None), CheckCommit(true)]
  }

  function NextMove(s: State, t: TransferId, head: nat): seq<Step>
    requires t in s.rows
  {
    if t in s.flight then [SendOk(t)]
    else if s.rows[t].status.Broadcasted? then CheckSteps(s, t, head)
    else [ClaimRow(t)]
  }

  lemma OneStep(s: State, cfg: Settings, step: Step)
    requires Enabled(s, cfg, step)
    ensures ValidRun(s, cfg, [step]) && Run(s, cfg, [step]) == Next(s, cfg, step)
  {
    RunSnoc(s, cfg, [], step);
    assert [] + [step] == [step];
  }

  lemma TwoSteps(s: State, cfg: Settings, a: Step, b: Step)
    requires Enabled(s, cfg, a) && Enabled(Next(s, cfg, a), cfg, b)
    ensures ValidRun(s, cfg, [a, b]) && Run(s, cfg, [a, b]) == Next(Next(s, cfg, a), cfg, b)
  {
    OneStep(s, cfg, a);
    RunSnoc(s, cfg, [a], b);
    assert [a] + [b] == [a, b];
  }

  /** A status change, an attempt, or a hand-over to or from the broadcaster. */
  predicate Moved(s: State, s1: State, t: TransferId)
    requires t in s.rows
  {
    t in s1.rows && (s1.rows[t].status != s.rows[t].status || (t in s1.flight) != (t in s.flight))
  }

  /** An aged check that finds no receipt requeues or fails a broadcast row. */
  lemma CheckMoves(s: State, cfg: Settings, t: TransferId, head: nat)
    requires SentOk(s) && s.watch.None? && t in s.rows && s.rows[t].status.Broadcasted?
    requires AwaitsReceipt(s, cfg, t, head)
    ensures var steps := [CheckRead(t, head, None), CheckCommit(true)];
            ValidRun(s, cfg, steps) && t in Run(s, cfg, steps).rows && Moved(s, Run(s, cfg, steps), t)
  {
    TwoSteps(s, cfg, CheckRead(t, head, None), CheckCommit(true));
  }

  lemma OtherCheckCommits(s: State, cfg: Settings, t: TransferId)
    requires Inv(s) && SentOk(s) && t in s.rows && s.watch.Some? && s.watch.value.transfer != t
    ensures Enabled(s, cfg, CheckCommit(false))
    ensures var s1 := Next(s, cfg, CheckCommit(false));
            s1.watch.None? && t in s1.rows && s1.rows[t] == s.rows[t] && s1.flight == s.flight && SentOk(s1)
  {
    StepKeepsSent(s, cfg, CheckCommit(false));
  }

  /** In every reachable state a row that is not final and awaits its receipt has a next move. */
  lemma CanAlwaysAct(cfg: Settings, run: seq<Step>, t: TransferId, head: nat)
    requires ValidRun(EMPTY, cfg, run)
    requires var s := Run(EMPTY, cfg, run);
             && t in s.rows && !Terminal(s.rows[t].status) && !s.rows[t].status.Confirmed?
             && (s.rows[t].status.Broadcasted? ==> AwaitsReceipt(s, cfg, t, head))
    ensures var s := Run(EMPTY, cfg, run);
            var steps := NextMove(s, t, head);
            ValidRun(s, cfg, steps) && Moved(s, Run(s, cfg, steps), t)
  {
    RunKeepsSent(EMPTY, cfg, run);
    NextMoveMoves(Run(EMPTY, cfg, run), cfg, t, head);
  }

  lemma NextMoveMoves(s: State, cfg: Settings, t: TransferId, head: nat)
    requires Inv(s) && SentOk(s) && t in s.rows && !Terminal(s.rows[t].status) && !s.rows[t].status.Confirmed?
    requires s.rows[t].status.Broadcasted? ==> AwaitsReceipt(s, cfg, t, head)
    ensures ValidRun(s, cfg, NextMove(s, t, head)) && Moved(s, Run(s, cfg, NextMove(s, t, head)), t)
  {
    if t in s.flight {
      OneStep(s, cfg, SendOk(t));
    } else if !s.rows[t].status.Broadcasted? {
      OneStep(s, cfg, ClaimRow(t));
    } else if s.watch.None? {
      CheckMoves(s, cfg, t, head);
    } else if s.watch.value.transfer == t {
      OneStep(s, cfg, CheckCommit(true));
    } else {
      var s1 := Next(s, cfg, CheckCommit(false));
      OtherCheckCommits(s, cfg, t);
      CheckMoves(s1, cfg, t, head);
      assert NextMove(s, t, head)[1..] == [CheckRead(t, head, None), CheckCommit(true)];
    }
  }

  // ---- together: a silent transfer ends FAILED ----

  /** A run without crash of the broadcaster in which the node shows no receipt for the transfer. */
  predicate Silent(steps: seq<Step>, t: TransferId)
  {
    forall step :: step in steps ==> ShowsNoReceipt(step, t) && !step.BroadcasterCrash?
  }

  /** All that a row without a receipt satisfies in such a run. */
  ghost predicate Waits(s: State, cfg: Settings, t: TransferId)
  {
    && Inv(s) && SentOk(s) && WithinBudget(s, cfg, t, 0) && NoReceiptYet(s, t) && Measure(s, cfg, t) >= 0
    && (t in s.rows ==> s.rows[t].number.None?)
  }

  lemma {:induction false} RunKeepsWaiting(s: State, cfg: Settings, steps: seq<Step>, t: TransferId)
    requires Waits(s, cfg, t) && ValidRun(s, cfg, steps) && Crashes(s, cfg, steps, t) == 0
    requires forall i :: 0 <= i < |steps| ==> ShowsNoReceipt(steps[i], t)
    ensures Waits(Run(s, cfg, steps), cfg, t)
    decreases |steps|
  {
    if steps != [] {
      StepKeepsWaiting(s, cfg, steps[0], t);
      RunKeepsWaiting(Next(s, cfg, steps[0]), cfg, steps[1..], t);
    }
  }

  lemma StepKeepsWaiting(s: State, cfg: Settings, step: Step, t: TransferId)
    requires Waits(s, cfg, t) && Enabled(s, cfg, step) && Costs(s, step, t) == 0 && ShowsNoReceipt(step, t)
    ensures Waits(Next(s, cfg, step), cfg, t)
  {
    StepKeeps(s, cfg, step);
    StepKeepsSent(s, cfg, step);
    StepStaysWithinBudget(s, cfg, step, t, 0);
    MeasureDecreases(s, cfg, step, t);
    NumberStays(s, cfg, step, t);
  }

  lemma NumberStays(s: State, cfg: Settings, step: Step, t: TransferId)
    requires NoReceiptYet(s, t) && Enabled(s, cfg, step) && (t in s.rows ==> s.rows[t].number.None?)
    ensures t in Next(s, cfg, step).rows ==> Next(s, cfg, step).rows[t].number.None?
  {
  }

  lemma {:induction false} SilentCostsNothing(s: State, cfg: Settings, steps: seq<Step>, t: TransferId)
    requires ValidRun(s, cfg, steps) && Silent(steps, t)
    ensures Crashes(s, cfg, steps, t) == 0
    decreases |steps|
  {
    if steps != [] {
      assert steps[0] in steps;
      SilentCostsNothing(Next(s, cfg, steps[0]), cfg, steps[1..], t);
    }
  }

  /** A run that moved the row had an acting step. */
  lemma {:induction false} MovedMeansActed(s: State, cfg: Settings, steps: seq<Step>, t: TransferId)
    requires ValidRun(s, cfg, steps) && t in s.rows && ActingSteps(s, cfg, steps, t) == 0
    ensures !Moved(s, Run(s, cfg, steps), t)
    decreases |steps|
  {
    if steps != [] {
      MovedMeansActed(Next(s, cfg, steps[0]), cfg, steps[1..], t);
    }
  }

  /** The next move uses up some of the measure. */
  lemma NextMoveLowers(s: State, cfg: Settings, t: TransferId)
    requires Waits(s, cfg, t) && t in s.rows && !s.rows[t].status.Failed?
    ensures var steps := NextMove(s, t, 0);
            && Silent(steps, t) && ValidRun(s, cfg, steps)
            && var s1 := Run(s, cfg, steps);
               Waits(s1, cfg, t) && t in s1.rows && Measure(s1, cfg, t) < Measure(s, cfg, t)
  {
    var steps := NextMove(s, t, 0);
    NextMoveMoves(s, cfg, t, 0);
    SilentCostsNothing(s, cfg, steps, t);
    RunKeepsWaiting(s, cfg, steps, t);
    ActingIsBounded(s, cfg, steps, t);
    if ActingSteps(s, cfg, steps, t) == 0 {
      MovedMeansActed(s, cfg, steps, t);
    }
  }

  lemma {:induction false} WaitingEndsFailed(s: State, cfg: Settings, t: TransferId) returns (more: seq<Step>)
    requires Waits(s, cfg, t) && t in s.rows
    ensures ValidRun(s, cfg, more) && Silent(more, t)
    ensures t in Run(s, cfg, more).rows && Run(s, cfg, more).rows[t].status.Failed?
    decreases Measure(s, cfg, t)
  {
    if s.rows[t].status.Failed? {
      more := [];
    } else {
      var move := NextMove(s, t, 0);
      NextMoveLowers(s, cfg, t);
      var rest := WaitingEndsFailed(Run(s, cfg, move), cfg, t);
      RunConcat(s, cfg, move, rest);
      more := move + rest;
    }
  }

  /**
    * Every run in which no crash hits the transfer in flight and no receipt for it appears goes on, still
    * without either, to a state in which its row is FAILED.
    */
  lemma SilentRunEndsFailed(cfg: Settings, steps: seq<Step>, t: TransferId) returns (more: seq<Step>)
    requires ValidRun(EMPTY, cfg, steps) && Crashes(EMPTY, cfg, steps, t) == 0
    requires forall i :: 0 <= i < |steps| ==> ShowsNoReceipt(steps[i], t)
    requires t in Run(EMPTY, cfg, steps).rows
    ensures var s := Run(EMPTY, cfg, steps);
            && ValidRun(s, cfg, more) && Silent(more, t)
            && t in Run(s, cfg, more).rows && Run(s, cfg, more).rows[t].status.Failed?
  {
    RunKeepsWaiting(EMPTY, cfg, steps, t);
    more := WaitingEndsFailed(Run(EMPTY, cfg, steps), cfg, t);
  }
}
