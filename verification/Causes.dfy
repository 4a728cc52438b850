/**
  * Why each event of the outgoing side was emitted: over every run, each goes back to what a worker did or
  * read, and a confirmation to a successful receipt that was deep enough when it was read.
  */
module Causes {
  import opened Events
  import opened Outgoing

  /** A block at height `number` is covered by at least `required` confirmations under this head. */
  predicate Deep(required: nat, head: nat, number: nat) { required == 0 || head - number + 1 >= required }

  /** A successful receipt of the transfer, deep enough under the head of that check. */
  predicate ConfirmingRead(step: Step, cfg: Settings, t: TransferId)
  {
    && step.CheckRead? && step.transfer == t
    && step.receipt.Some? && step.receipt.value.ok && Deep(cfg.required, step.head, step.receipt.value.number)
  }

  predicate EmptyRead(step: Step, t: TransferId) { step.CheckRead? && step.transfer == t && step.receipt.None? }

  /** The step is what makes the event possible. */
  predicate Cause(step: Step, cfg: Settings, e: Event)
  {
    match e
    case TxBroadcasted(t) => step == SendOk(t)
    case TxConfirmed(t) => ConfirmingRead(step, cfg, t)
    case TxFailed(t, code, wasConfirmed) =>
      (match code
       case UnknownSendingAddress => step.AcceptRequest? && step.transfer == t && !step.known && !wasConfirmed
       case RejectedByNode => step == SendRejected(t) && !wasConfirmed
       case RpcUnavailable => step == SendError(t, true) && !wasConfirmed
       case BroadcastFailed => step == SendError(t, false) && !wasConfirmed
       case RevertedOnChain =>
         step.CheckRead? && step.transfer == t && step.receipt.Some? && !step.receipt.value.ok && !wasConfirmed
       case StuckPending => EmptyRead(step, t) && !wasConfirmed
       case ChainReorg(_) => EmptyRead(step, t) && wasConfirmed)
    case _ => false
  }

  ghost predicate Caused(done: seq<Step>, cfg: Settings, e: Event)
  {
    exists step :: step in done && Cause(step, cfg, e)
  }

  /** Every event has its cause, and a check in progress is one of the reads. */
  ghost predicate AllCaused(s: State, cfg: Settings, done: seq<Step>)
  {
    && (forall e :: e in s.log ==> Caused(done, cfg, e))
    && (s.watch.Some? ==> CheckRead(s.watch.value.transfer, s.watch.value.head, s.watch.value.receipt) in done)
  }

  lemma CausedStays(done: seq<Step>, cfg: Settings, step: Step, e: Event)
    requires Caused(done, cfg, e) || Cause(step, cfg, e)
    ensures Caused(done + [step], cfg, e)
  {
    if Caused(done, cfg, e) {
      var cause :| cause in done && Cause(cause, cfg, e);
      assert cause in done + [step];
    } else {
      assert (done + [step])[|done|] == step;
    }
  }

  // ---- exactly when a transfer is confirmed ----

  /** The check about to be committed confirms the transfer. */
  predicate CommitsConfirmation(s: State, cfg: Settings, step: Step, t: TransferId)
  {
    && step.CheckCommit? && s.watch.Some? && s.watch.value.transfer == t
    && s.watch.value.receipt.Some? && s.watch.value.receipt.value.ok
    && t in s.rows && s.rows[t].status.Broadcasted?
    && Deep(cfg.required, s.watch.value.head, s.watch.value.receipt.value.number)
  }

  /** A step emits the confirmation of a transfer iff it commits such a check. */
  lemma ConfirmedIff(s: State, cfg: Settings, step: Step, t: TransferId)
    requires Inv(s) && Enabled(s, cfg, step)
    ensures TxConfirmed(t) in Next(s, cfg, step).log && TxConfirmed(t) !in s.log <==>
            CommitsConfirmation(s, cfg, step, t)
  {
    if CommitsConfirmation(s, cfg, step, t) {
      assert CountsOk(s, t);
      NoneEmitted(s.log, t);
      FirstIsNew(s.log, TxConfirmed(t));
    }
  }

  // ---- every event has its cause ----

  lemma NewEventIsCaused(s: State, cfg: Settings, step: Step, done: seq<Step>, e: Event)
    requires Inv(s) && Enabled(s, cfg, step) && AllCaused(s, cfg, done)
    requires e in Next(s, cfg, step).log && e !in s.log
    ensures Caused(done + [step], cfg, e)
  {
    if step.CheckCommit? {
      var c := s.watch.value;
      var read := CheckRead(c.transfer, c.head, c.receipt);
      assert Cause(read, cfg, e);
      assert read in done;
    }
    CausedStays(done, cfg, step, e);
  }

  lemma StepKeepsCaused(s: State, cfg: Settings, step: Step, done: seq<Step>)
    requires Inv(s) && Enabled(s, cfg, step) && AllCaused(s, cfg, done)
    ensures AllCaused(Next(s, cfg, step), cfg, done + [step])
  {
    var t := Next(s, cfg, step);
    forall e | e in t.log ensures Caused(done + [step], cfg, e) {
      if e in s.log {
        CausedStays(done, cfg, step, e);
      } else {
        NewEventIsCaused(s, cfg, step, done, e);
      }
    }
    WatchIsRead(s, cfg, step, done);
  }

  lemma WatchIsRead(s: State, cfg: Settings, step: Step, done: seq<Step>)
    requires Enabled(s, cfg, step)
    requires s.watch.Some? ==> CheckRead(s.watch.value.transfer, s.watch.value.head, s.watch.value.receipt) in done
    ensures var t := Next(s, cfg, step);
            t.watch.Some? ==>
              CheckRead(t.watch.value.transfer, t.watch.value.head, t.watch.value.receipt) in done + [step]
  {
    assert (done + [step])[|done|] == step;
  }

  lemma {:induction false} RunKeepsCaused(s: State, cfg: Settings, steps: seq<Step>, done: seq<Step>)
    requires Inv(s) && AllCaused(s, cfg, done) && ValidRun(s, cfg, steps)
    ensures AllCaused(Run(s, cfg, steps), cfg, done + steps)
    decreases |steps|
  {
    if steps == [] {
      assert done + steps == done;
    } else {
      StepKeeps(s, cfg, steps[0]);
      StepKeepsCaused(s, cfg, steps[0], done);
      RunKeepsCaused(Next(s, cfg, steps[0]), cfg, steps[1..], done + [steps[0]]);
      assert done + [steps[0]] + steps[1..] == done + steps;
    }
  }

  /** In every run each event has its cause among the steps. */
  lemma EveryEventIsCaused(cfg: Settings, steps: seq<Step>, e: Event)
    requires ValidRun(EMPTY, cfg, steps) && e in Run(EMPTY, cfg, steps).log
    ensures exists step :: step in steps && Cause(step, cfg, e)
  {
    RunKeepsCaused(EMPTY, cfg, steps, []);
    assert [] + steps == steps;
    assert Caused(steps, cfg, e);
  }
}
