/**
  * A message whose dispatch always fails. Consumers may compete and crash at any point; the one
  * crash that delays the burial is the one between the last failure and the dead letter.
  */
module Poison {
  import opened Events
  import opened Delivery

  /** Every dispatch the limit allows has been made. */
  ghost predicate Spent(s: State, cfg: Settings, m: nat) { |CallsOf(s.calls, m)| == Limit(cfg) }

  ghost predicate Unprocessed(s: State, m: nat)
  {
    m < |s.topic.messages| ==> Id(s.topic.messages[m]) !in s.processed
  }

  lemma SameSizeSame<T>(a: set<T>, b: set<T>)
    requires a <= b && |a| == |b|
    ensures a == b
  {
    assert b == a + (b - a);
  }

  /** All delivery counts up to the limit were used. */
  lemma SpentMeansAll(s: State, cfg: Settings, m: nat)
    requires Inv(s, cfg) && Spent(s, cfg, m)
    ensures CallsOf(s.calls, m) == UpTo(m, Limit(cfg))
  {
    CallsWithinLimit(s, cfg, m);
    UpToSize(m, Limit(cfg));
    SameSizeSame(CallsOf(s.calls, m), UpTo(m, Limit(cfg)));
  }

  /** Once spent, a hand-over of the message can only be buried. */
  lemma SpentIsOnlyBuried(cfg: Settings, steps: seq<Step>, m: nat, h: Handover)
    requires ValidRun(EMPTY, cfg, steps) && Spent(Run(EMPTY, cfg, steps), cfg, m)
    requires var s := Run(EMPTY, cfg, steps); h.msg == m && h in s.inbox && s.inbox[h].Waiting?
    ensures var s := Run(EMPTY, cfg, steps);
            Enabled(s, cfg, Bury(h)) && !Enabled(s, cfg, Dispatch(h, true)) && !Enabled(s, cfg, Dispatch(h, false))
  {
    var s := Run(EMPTY, cfg, steps);
    RunKeeps(EMPTY, cfg, steps);
    SpentMeansAll(s, cfg, m);
    assert HandoverOk(s, h);
    assert h !in UpTo(m, Limit(cfg));
  }

  lemma {:induction false} CallsGrow(s: State, cfg: Settings, steps: seq<Step>)
    requires ValidRun(s, cfg, steps)
    ensures s.calls <= Run(s, cfg, steps).calls
    decreases |steps|
  {
    if steps != [] {
      CallsGrow(Next(s, cfg, steps[0]), cfg, steps[1..]);
    }
  }

  /** Once spent, no continuation dispatches the message again. */
  lemma NeverDispatchedAgain(cfg: Settings, steps: seq<Step>, more: seq<Step>, m: nat)
    requires ValidRun(EMPTY, cfg, steps) && Spent(Run(EMPTY, cfg, steps), cfg, m)
    requires ValidRun(Run(EMPTY, cfg, steps), cfg, more)
    ensures var s := Run(EMPTY, cfg, steps);
            CallsOf(Run(s, cfg, more).calls, m) == CallsOf(s.calls, m)
  {
    var s := Run(EMPTY, cfg, steps);
    var t := Run(s, cfg, more);
    RunKeeps(EMPTY, cfg, steps);
    RunKeeps(s, cfg, more);
    CallsGrow(s, cfg, more);
    SpentMeansAll(s, cfg, m);
    CallsWithinLimit(t, cfg, m);
    assert CallsOf(s.calls, m) <= CallsOf(t.calls, m);
  }

  // ---- the burial ----

  /** A dispatch at the limit ended well, or is dead-lettered, or is about to be. */
  ghost predicate LastCallSettled(s: State, h: Handover)
  {
    !Unprocessed(s, h.msg) || h.msg in s.dead || (h in s.inbox && s.inbox[h].Raised?)
  }

  ghost predicate Settled(s: State, cfg: Settings)
  {
    forall h :: h in s.calls && Reported(cfg, h) >= cfg.maxDelivery ==> LastCallSettled(s, h)
  }

  /** Only a dispatch at the limit is between its failure and its dead letter. */
  ghost predicate RaisedWereCalled(s: State, cfg: Settings)
  {
    forall h :: h in s.inbox && s.inbox[h].Raised? ==> h in s.calls && Reported(cfg, h) >= cfg.maxDelivery
  }

  /** No crash takes an undecided message between its last failure and its dead letter. */
  ghost predicate Careful(s: State, step: Step)
  {
    step.Lose? ==>
      forall h :: h in step.handovers && h in s.inbox && s.inbox[h].Raised? ==>
        !Unprocessed(s, h.msg) || h.msg in s.dead
  }

  ghost predicate CarefulRun(s: State, cfg: Settings, steps: seq<Step>)
    requires ValidRun(s, cfg, steps)
    decreases |steps|
  {
    steps == [] || (Careful(s, steps[0]) && CarefulRun(Next(s, cfg, steps[0]), cfg, steps[1..]))
  }

  lemma RelayKeepsSettled(s: State, cfg: Settings, step: Step)
    requires Inv(s, cfg) && Settled(s, cfg) && Enabled(s, cfg, step)
    requires !step.Dispatch? && !step.Bury? && !step.Acknowledge? && !step.Lose? && !step.Read? && !step.Claim?
    ensures Settled(Next(s, cfg, step), cfg)
  {
    var t := Next(s, cfg, step);
    forall h | h in t.calls && Reported(cfg, h) >= cfg.maxDelivery ensures LastCallSettled(t, h) {
      assert LastCallSettled(s, h) && CallOk(s, cfg, h);
    }
  }

  /** A read or a claim makes a new hand-over and leaves the others in place. */
  lemma HandingKeepsSettled(s: State, cfg: Settings, step: Step)
    requires Inv(s, cfg) && Settled(s, cfg) && Enabled(s, cfg, step) && (step.Read? || step.Claim?)
    ensures Settled(Next(s, cfg, step), cfg)
  {
    var t := Next(s, cfg, step);
    forall h | h in t.calls && Reported(cfg, h) >= cfg.maxDelivery ensures LastCallSettled(t, h) {
      assert LastCallSettled(s, h) && CallOk(s, cfg, h);
      if h in s.inbox {
        assert HandoverOk(s, h);
      }
    }
  }

  lemma ConsumerKeepsSettled(s: State, cfg: Settings, step: Step)
    requires Inv(s, cfg) && Settled(s, cfg) && Enabled(s, cfg, step)
    requires step.Dispatch? || step.Bury? || step.Acknowledge?
    ensures Settled(Next(s, cfg, step), cfg)
  {
    var t := Next(s, cfg, step);
    forall h | h in t.calls && Reported(cfg, h) >= cfg.maxDelivery ensures LastCallSettled(t, h) {
      assert h in s.calls ==> LastCallSettled(s, h);
    }
  }

  lemma CrashKeepsSettledIff(s: State, cfg: Settings, lost: set<Handover>)
    requires Settled(s, cfg) && RaisedWereCalled(s, cfg)
    ensures Settled(Next(s, cfg, Lose(lost)), cfg) <==> Careful(s, Lose(lost))
  {
    var t := Next(s, cfg, Lose(lost));
    if Careful(s, Lose(lost)) {
      forall h | h in t.calls && Reported(cfg, h) >= cfg.maxDelivery ensures LastCallSettled(t, h) {
        assert LastCallSettled(s, h);
      }
    } else {
      var h :| h in lost && h in s.inbox && s.inbox[h].Raised? && Unprocessed(s, h.msg) && h.msg !in s.dead;
      assert h in t.calls && !LastCallSettled(t, h);
    }
  }

  lemma StepKeepsSettledIff(s: State, cfg: Settings, step: Step)
    requires Inv(s, cfg) && Settled(s, cfg) && RaisedWereCalled(s, cfg) && Enabled(s, cfg, step)
    ensures Settled(Next(s, cfg, step), cfg) <==> Careful(s, step)
  {
    if step.Read? || step.Claim? {
      HandingKeepsSettled(s, cfg, step);
    } else if step.Dispatch? || step.Bury? || step.Acknowledge? {
      ConsumerKeepsSettled(s, cfg, step);
    } else if step.Lose? {
      CrashKeepsSettledIff(s, cfg, step.handovers);
    } else {
      RelayKeepsSettled(s, cfg, step);
    }
  }

  lemma StepKeepsRaised(s: State, cfg: Settings, step: Step)
    requires RaisedWereCalled(s, cfg) && Enabled(s, cfg, step)
    ensures RaisedWereCalled(Next(s, cfg, step), cfg)
  {
  }

  lemma {:induction false} RunKeepsSettled(s: State, cfg: Settings, steps: seq<Step>)
    requires Inv(s, cfg) && Settled(s, cfg) && RaisedWereCalled(s, cfg)
    requires ValidRun(s, cfg, steps) && CarefulRun(s, cfg, steps)
    ensures var t := Run(s, cfg, steps); Inv(t, cfg) && Settled(t, cfg) && RaisedWereCalled(t, cfg)
    decreases |steps|
  {
    if steps != [] {
      StepKeeps(s, cfg, steps[0]);
      StepKeepsSettledIff(s, cfg, steps[0]);
      StepKeepsRaised(s, cfg, steps[0]);
      RunKeepsSettled(Next(s, cfg, steps[0]), cfg, steps[1..]);
    }
  }

  /**
    * In every run with competing consumers and crashes, except one between the last failure and its dead
    * letter: a message dispatched at the limit and still unprocessed is dead-lettered, or in the hands of
    * the consumer that is just about to, however many deliveries were lost before.
    */
  lemma PoisonIsBuried(cfg: Settings, steps: seq<Step>, h: Handover)
    requires ValidRun(EMPTY, cfg, steps) && CarefulRun(EMPTY, cfg, steps)
    requires var s := Run(EMPTY, cfg, steps);
             h in s.calls && Reported(cfg, h) >= cfg.maxDelivery && Unprocessed(s, h.msg)
    ensures var s := Run(EMPTY, cfg, steps);
            h.msg in s.dead || (h in s.inbox && s.inbox[h].Raised?)
  {
    RunKeepsSettled(EMPTY, cfg, steps);
    assert LastCallSettled(Run(EMPTY, cfg, steps), h);
  }

  /** The condition on the crash is exact: any other one leaves such a message unburied and in nobody's hands. */
  lemma CarefulIffBuried(cfg: Settings, steps: seq<Step>, step: Step)
    requires ValidRun(EMPTY, cfg, steps) && CarefulRun(EMPTY, cfg, steps) && Enabled(Run(EMPTY, cfg, steps), cfg, step)
    ensures var s := Run(EMPTY, cfg, steps);
            Careful(s, step) <==> Settled(Next(s, cfg, step), cfg)
  {
    RunKeepsSettled(EMPTY, cfg, steps);
    StepKeepsSettledIff(Run(EMPTY, cfg, steps), cfg, step);
  }

  // ---- nothing new after the last permitted delivery ----

  /** The delivery with the last permitted count was dispatched. */
  predicate LastCalled(s: State, cfg: Settings, m: nat) { Handover(m, Limit(cfg)) in s.calls }

  lemma SpentIsLastCalled(s: State, cfg: Settings, m: nat)
    requires Inv(s, cfg) && Spent(s, cfg, m) && cfg.maxDelivery >= 1
    ensures LastCalled(s, cfg, m)
  {
    SpentMeansAll(s, cfg, m);
    assert Handover(m, Limit(cfg)) in UpTo(m, Limit(cfg));
  }

  /** Whoever holds the message held it already, or holds a delivery beyond the limit. */
  ghost predicate NothingNew(s: State, cfg: Settings, m: nat, held: set<Handover>, called: set<Handover>)
  {
    && m < s.topic.cursor <= |s.topic.messages|
    && (m in s.topic.pending ==> s.topic.pending[m] >= Limit(cfg))
    && (forall h :: h in s.inbox && h.msg == m ==> h in held || h.count > Limit(cfg))
    && (forall h :: h in s.calls && h.msg == m ==> h in held || h in called)
  }

  lemma {:induction false} RunAddsNothingNew(
      s: State, cfg: Settings, steps: seq<Step>, m: nat, held: set<Handover>, called: set<Handover>)
    requires NothingNew(s, cfg, m, held, called) && ValidRun(s, cfg, steps)
    ensures NothingNew(Run(s, cfg, steps), cfg, m, held, called)
    decreases |steps|
  {
    if steps != [] {
      RunAddsNothingNew(Next(s, cfg, steps[0]), cfg, steps[1..], m, held, called);
    }
  }

  /**
    * After the last permitted delivery was dispatched, any later hand-over of the message can only be
    * buried, and whatever is still dispatched was in hand by then.
    */
  lemma LastCallIsLast(cfg: Settings, steps: seq<Step>, more: seq<Step>, m: nat, h: Handover)
    requires ValidRun(EMPTY, cfg, steps) && LastCalled(Run(EMPTY, cfg, steps), cfg, m)
    requires ValidRun(Run(EMPTY, cfg, steps), cfg, more) && h.msg == m && h !in Run(EMPTY, cfg, steps).inbox
    ensures var s := Run(EMPTY, cfg, steps);
            var t := Run(s, cfg, more);
            && (h in t.calls ==> h in s.calls)
            && (h in t.inbox ==> !Enabled(t, cfg, Dispatch(h, true)) && !Enabled(t, cfg, Dispatch(h, false)))
            && (h in t.inbox && t.inbox[h].Waiting? ==> Enabled(t, cfg, Bury(h)))
  {
    var s := Run(EMPTY, cfg, steps);
    RunKeeps(EMPTY, cfg, steps);
    assert CallOk(s, cfg, Handover(m, Limit(cfg)));
    RunAddsNothingNew(s, cfg, more, m, s.inbox.Keys, s.calls);
  }

  /**
    * Once its dead letter is acknowledged, the message stays dead-lettered, is never handed over again, and
    * only hand-overs in other hands at that moment can still be dispatched.
    */
  lemma BuriedForGood(cfg: Settings, steps: seq<Step>, h: Handover, more: seq<Step>)
    requires ValidRun(EMPTY, cfg, steps)
    requires var s := Run(EMPTY, cfg, steps);
             && h in s.inbox && s.inbox[h].Rejected?
             && ValidRun(Next(s, cfg, Acknowledge(h)), cfg, more)
    ensures var s := Next(Run(EMPTY, cfg, steps), cfg, Acknowledge(h));
            var t := Run(s, cfg, more);
            && h.msg in t.dead && Finished(t, h.msg)
            && (forall g :: g in t.inbox && g.msg == h.msg ==> g in s.inbox)
            && (forall g :: g in t.calls && g.msg == h.msg ==> g in s.inbox || g in s.calls)
  {
    var s := Run(EMPTY, cfg, steps);
    RunKeeps(EMPTY, cfg, steps);
    assert HandoverOk(s, h);
    var t := Next(s, cfg, Acknowledge(h));
    FinishedStays(t, cfg, more, h.msg, t.inbox.Keys, t.calls);
  }

  lemma {:induction false} FinishedStays(
      s: State, cfg: Settings, steps: seq<Step>, m: nat, held: set<Handover>, called: set<Handover>)
    requires ValidRun(s, cfg, steps) && Finished(s, m) && m in s.dead && s.topic.cursor <= |s.topic.messages|
    requires forall h :: h in s.inbox && h.msg == m ==> h in held
    requires forall h :: h in s.calls && h.msg == m ==> h in held || h in called
    ensures var t := Run(s, cfg, steps);
            && Finished(t, m) && m in t.dead
            && (forall h :: h in t.inbox && h.msg == m ==> h in held)
            && (forall h :: h in t.calls && h.msg == m ==> h in held || h in called)
    decreases |steps|
  {
    if steps != [] {
      FinishedStays(Next(s, cfg, steps[0]), cfg, steps[1..], m, held, called);
    }
  }

  /** If that one crash happens, the message is still pending, and its next claim buries it undispatched. */
  lemma LostPoisonIsBuriedNext(cfg: Settings, steps: seq<Step>, m: nat)
    requires ValidRun(EMPTY, cfg, steps)
    requires var s := Run(EMPTY, cfg, steps); LastCalled(s, cfg, m) && Unprocessed(s, m) && m !in s.dead
    ensures var s := Run(EMPTY, cfg, steps);
            && m in s.topic.pending
            && var t := Next(s, cfg, Claim(m));
               var h := Handover(m, s.topic.pending[m] + 1);
               Enabled(t, cfg, Bury(h)) && !Enabled(t, cfg, Dispatch(h, true)) && m in Next(t, cfg, Bury(h)).dead
  {
    var s := Run(EMPTY, cfg, steps);
    RunKeeps(EMPTY, cfg, steps);
    assert CallOk(s, cfg, Handover(m, Limit(cfg)));
    assert Accounted(s, m);
  }

  // ---- the excluded crash really delays the burial ----

  const CFG: Settings := Settings(1, false)
  const EVENT: Event := TxBroadcasted(0)
  const ONLY: Handover := Handover(0, 1)

  const READ: State :=
    EMPTY.(outbox := [OutboxRow(EVENT, false, 0)], marks := {0}, topic := Topic([EVENT], 1, map[0 := 1]),
           inbox := map[ONLY := Waiting])

  lemma ReadIsReachable()
    ensures Reachable(READ, CFG)
  {
    EmptyIsReachable(CFG);
    var s1 := EMPTY.(outbox := [OutboxRow(EVENT, false, 0)]);
    ReachTo(EMPTY, CFG, Commit(EVENT), s1);
    var s2 := s1.(marks := {0}, topic := Topic([EVENT], 0, map[]));
    ReachTo(s1, CFG, RelayPublish(0), s2);
    assert Unread(s2.topic, 1) == {0} by { assert InBatch(s2.topic, 1, 0); }
    assert Fresh(s2.topic, 1) == {ONLY};
    ReachTo(s2, CFG, Read(1), READ);
  }

  lemma CrashDelaysBurial()
    ensures exists s :: Reachable(s, CFG) && Spent(s, CFG, 0) && Unprocessed(s, 0) && 0 !in s.dead && s.inbox == map[]
  {
    ReadIsReachable();
    var s1 := READ.(calls := {ONLY}, inbox := map[ONLY := Raised]);
    ReachTo(READ, CFG, Dispatch(ONLY, false), s1);
    var s2 := s1.(inbox := map[]);
    ReachTo(s1, CFG, Lose({ONLY}), s2);
    assert CallsOf(s2.calls, 0) == {ONLY};
  }
}
