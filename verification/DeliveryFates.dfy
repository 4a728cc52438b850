/**
  * The fate of one message: pending, processed or dead-lettered. Consumers may compete and crash. Which
  * claims and which crashes can leave it with two fates is decided exactly, at the step.
  */
module DeliveryFates {
  import opened Events
  import opened Delivery

  // ---- what a hand-over may still do ----

  predicate CanSucceed(cfg: Settings, h: Handover, stage: Stage)
  {
    stage.Waiting? && Reported(cfg, h) <= cfg.maxDelivery
  }

  predicate CanBury(cfg: Settings, h: Handover, stage: Stage)
  {
    stage.Raised? || (stage.Waiting? && Reported(cfg, h) >= cfg.maxDelivery)
  }

  predicate Decided(stage: Stage) { stage.Handled? || stage.Rejected? }

  predicate InHand(s: State, m: nat, h: Handover) { h in s.inbox && h.msg == m }

  /** What a claim of the message hands out next. */
  function Claimed(s: State, m: nat): Handover
    requires m in s.topic.pending
  {
    Handover(m, s.topic.pending[m] + 1)
  }

  /** One of the two hand-overs may be processed and the other dead-lettered; `g` is new. */
  predicate Clashes(cfg: Settings, h: Handover, stage: Stage, g: Handover)
  {
    match stage
    case Handled => Reported(cfg, g) >= cfg.maxDelivery
    case Waiting => Reported(cfg, h) <= cfg.maxDelivery <= Reported(cfg, g)
    case Raised => Reported(cfg, g) <= cfg.maxDelivery
    case Rejected => Reported(cfg, g) <= cfg.maxDelivery
  }

  ghost predicate Contested(s: State, cfg: Settings, m: nat)
    requires m in s.topic.pending
  {
    exists h :: InHand(s, m, h) && Clashes(cfg, h, s.inbox[h], Claimed(s, m))
  }

  /** A crash takes everyone who knows how the message, still pending, was decided. */
  ghost predicate Forgets(s: State, lost: set<Handover>, m: nat)
  {
    && m in s.topic.pending
    && (exists h :: InHand(s, m, h) && Decided(s.inbox[h]))
    && (forall h :: InHand(s, m, h) && Decided(s.inbox[h]) ==> h in lost)
  }

  /** Every step but a contested claim of the message and a crash that forgets its fate. */
  ghost predicate Safe(s: State, cfg: Settings, step: Step, m: nat)
    requires Enabled(s, cfg, step)
  {
    match step
    case Claim(x) => x == m ==> !Contested(s, cfg, m)
    case Lose(lost) => !Forgets(s, lost, m)
    case _ => true
  }

  ghost predicate SafeRun(s: State, cfg: Settings, steps: seq<Step>, m: nat)
    requires ValidRun(s, cfg, steps)
    decreases |steps|
  {
    steps == [] || (Safe(s, cfg, steps[0], m) && SafeRun(Next(s, cfg, steps[0]), cfg, steps[1..], m))
  }

  // ---- one fate ----

  /** The messages dispatched successfully so far. */
  function DoneAfter(done: set<nat>, step: Step): set<nat>
  {
    if step.Dispatch? && step.ok then done + {step.handover.msg} else done
  }

  function DoneIn(steps: seq<Step>, done: set<nat>): set<nat>
    decreases |steps|
  {
    if steps == [] then done else DoneIn(steps[1..], DoneAfter(done, steps[0]))
  }

  /** Never both processed and dead-lettered; and while nobody holds it, exactly one of the three. */
  ghost predicate OneFate(s: State, done: set<nat>, m: nat)
  {
    m < s.topic.cursor ==>
      && !(m in done && m in s.dead)
      && (m in s.topic.pending || m in done || m in s.dead)
      && ((forall h :: !InHand(s, m, h)) ==> m in s.topic.pending ==> m !in done && m !in s.dead)
  }

  /** Hand-overs of the message agree with its fate, and no two of them can still end differently. */
  ghost predicate Agreeing(s: State, cfg: Settings, done: set<nat>, m: nat)
  {
    && (forall h :: InHand(s, m, h) && s.inbox[h].Handled? ==> m in done)
    && (forall h :: InHand(s, m, h) && m in done ==> !CanBury(cfg, h, s.inbox[h]))
    && (forall h :: InHand(s, m, h) && m in s.dead ==> !CanSucceed(cfg, h, s.inbox[h]))
    && (forall h, k :: InHand(s, m, h) && InHand(s, m, k) && h != k && CanSucceed(cfg, h, s.inbox[h]) ==>
          !CanBury(cfg, k, s.inbox[k]))
  }

  ghost predicate Sound(s: State, cfg: Settings, done: set<nat>, m: nat)
  {
    && Agreeing(s, cfg, done, m)
    && !(m in done && m in s.dead)
    && (m in done || m in s.dead ==> m < s.topic.cursor)
    && (m in s.topic.pending && (m in done || m in s.dead) ==> exists h :: InHand(s, m, h) && Decided(s.inbox[h]))
    && (m < s.topic.cursor && m !in s.topic.pending ==> m in done || m in s.dead)
  }

  lemma SoundMeansOneFate(s: State, cfg: Settings, done: set<nat>, m: nat)
    requires Sound(s, cfg, done, m)
    ensures OneFate(s, done, m)
  {
  }

  // ---- safe steps keep it ----

  lemma ClaimKeepsSound(s: State, cfg: Settings, x: nat, done: set<nat>, m: nat)
    requires Inv(s, cfg) && Sound(s, cfg, done, m) && x in s.topic.pending && (x == m ==> !Contested(s, cfg, m))
    ensures Sound(Next(s, cfg, Claim(x)), cfg, done, m)
  {
    var t := Next(s, cfg, Claim(x));
    var g := Claimed(s, x);
    assert g !in s.inbox by {
      assert g in s.inbox ==> HandoverOk(s, g);
    }
    if x == m {
      forall h | InHand(s, m, h) ensures !Clashes(cfg, h, s.inbox[h], g) && Reported(cfg, h) <= Reported(cfg, g) {
        assert HandoverOk(s, h);
      }
    }
    WitnessStays(s, t, done, m);
  }

  lemma WitnessStays(s: State, t: State, done: set<nat>, m: nat)
    requires m in s.topic.pending && (m in done || m in s.dead) ==> exists h :: InHand(s, m, h) && Decided(s.inbox[h])
    requires m in t.topic.pending && (m in done || m in t.dead) ==> m in s.topic.pending && (m in done || m in s.dead)
    requires forall h :: InHand(s, m, h) && Decided(s.inbox[h]) ==> h in t.inbox && t.inbox[h] == s.inbox[h]
    ensures m in t.topic.pending && (m in done || m in t.dead) ==> exists h :: InHand(t, m, h) && Decided(t.inbox[h])
  {
    if m in t.topic.pending && (m in done || m in t.dead) {
      var h :| InHand(s, m, h) && Decided(s.inbox[h]);
      assert InHand(t, m, h);
    }
  }

  lemma ReadKeepsSound(s: State, cfg: Settings, count: nat, done: set<nat>, m: nat)
    requires Inv(s, cfg) && Sound(s, cfg, done, m)
    ensures Sound(Next(s, cfg, Read(count)), cfg, done, m)
  {
    var t := Next(s, cfg, Read(count));
    forall h | h in s.inbox ensures h.msg < s.topic.cursor && t.inbox[h] == s.inbox[h] {
      assert HandoverOk(s, h);
    }
    WitnessStays(s, t, done, m);
  }

  lemma DispatchKeepsSound(s: State, cfg: Settings, h: Handover, ok: bool, done: set<nat>, m: nat)
    requires Inv(s, cfg) && Sound(s, cfg, done, m) && Enabled(s, cfg, Dispatch(h, ok))
    ensures Sound(Next(s, cfg, Dispatch(h, ok)), cfg, DoneAfter(done, Dispatch(h, ok)), m)
  {
    var t := Next(s, cfg, Dispatch(h, ok));
    assert HandoverOk(s, h);
    if h.msg == m && ok {
      assert InHand(t, m, h) && t.inbox[h].Handled?;
    } else {
      WitnessStays(s, t, done, m);
    }
  }

  lemma BuryKeepsSound(s: State, cfg: Settings, h: Handover, done: set<nat>, m: nat)
    requires Inv(s, cfg) && Sound(s, cfg, done, m) && Enabled(s, cfg, Bury(h))
    ensures Sound(Next(s, cfg, Bury(h)), cfg, done, m)
  {
    var t := Next(s, cfg, Bury(h));
    assert HandoverOk(s, h);
    if h.msg == m {
      assert InHand(t, m, h) && t.inbox[h].Rejected?;
    } else {
      WitnessStays(s, t, done, m);
    }
  }

  lemma AckKeepsSound(s: State, cfg: Settings, h: Handover, done: set<nat>, m: nat)
    requires Inv(s, cfg) && Sound(s, cfg, done, m) && Enabled(s, cfg, Acknowledge(h))
    ensures Sound(Next(s, cfg, Acknowledge(h)), cfg, done, m)
  {
    assert HandoverOk(s, h);
    if h.msg != m {
      WitnessStays(s, Next(s, cfg, Acknowledge(h)), done, m);
    }
  }

  lemma LoseKeepsSound(s: State, cfg: Settings, lost: set<Handover>, done: set<nat>, m: nat)
    requires Sound(s, cfg, done, m) && !Forgets(s, lost, m)
    ensures Sound(Next(s, cfg, Lose(lost)), cfg, done, m)
  {
    var t := Next(s, cfg, Lose(lost));
    if m in s.topic.pending && (m in done || m in s.dead) {
      var h :| InHand(s, m, h) && Decided(s.inbox[h]) && h !in lost;
      assert InHand(t, m, h);
    }
  }

  lemma RelayKeepsSound(s: State, cfg: Settings, step: Step, done: set<nat>, m: nat)
    requires Sound(s, cfg, done, m) && Enabled(s, cfg, step)
    requires step.Commit? || step.RelayPublish? || step.RelayFail? || step.RelayCommit? || step.RelayCrash?
    ensures Sound(Next(s, cfg, step), cfg, done, m)
  {
    WitnessStays(s, Next(s, cfg, step), done, m);
  }

  lemma StepKeepsSound(s: State, cfg: Settings, step: Step, done: set<nat>, m: nat)
    requires Inv(s, cfg) && Sound(s, cfg, done, m) && Enabled(s, cfg, step) && Safe(s, cfg, step, m)
    ensures Sound(Next(s, cfg, step), cfg, DoneAfter(done, step), m)
  {
    match step
    case Read(count) => ReadKeepsSound(s, cfg, count, done, m);
    case Claim(x) => ClaimKeepsSound(s, cfg, x, done, m);
    case Dispatch(h, ok) => DispatchKeepsSound(s, cfg, h, ok, done, m);
    case Bury(h) => BuryKeepsSound(s, cfg, h, done, m);
    case Acknowledge(h) => AckKeepsSound(s, cfg, h, done, m);
    case Lose(lost) => LoseKeepsSound(s, cfg, lost, done, m);
    case _ => RelayKeepsSound(s, cfg, step, done, m);
  }

  lemma {:induction false} RunKeepsSound(s: State, cfg: Settings, steps: seq<Step>, done: set<nat>, m: nat)
    requires Inv(s, cfg) && Sound(s, cfg, done, m) && ValidRun(s, cfg, steps) && SafeRun(s, cfg, steps, m)
    ensures Inv(Run(s, cfg, steps), cfg) && Sound(Run(s, cfg, steps), cfg, DoneIn(steps, done), m)
    decreases |steps|
  {
    if steps != [] {
      StepKeeps(s, cfg, steps[0]);
      StepKeepsSound(s, cfg, steps[0], done, m);
      RunKeepsSound(Next(s, cfg, steps[0]), cfg, steps[1..], DoneAfter(done, steps[0]), m);
    }
  }

  /** In a run whose every step is safe for the message, it has one fate. */
  lemma ExactlyOneFate(cfg: Settings, steps: seq<Step>, m: nat)
    requires ValidRun(EMPTY, cfg, steps) && SafeRun(EMPTY, cfg, steps, m)
    ensures OneFate(Run(EMPTY, cfg, steps), DoneIn(steps, {}), m)
  {
    RunKeepsSound(EMPTY, cfg, steps, {}, m);
    SoundMeansOneFate(Run(EMPTY, cfg, steps), cfg, DoneIn(steps, {}), m);
  }

  // ---- any other step can take it away ----

  /** The run is valid and safe for the message, and leaves it without its one fate. */
  ghost predicate Breaks(s: State, cfg: Settings, steps: seq<Step>, done: set<nat>, m: nat)
  {
    ValidRun(s, cfg, steps) && SafeRun(s, cfg, steps, m) && !OneFate(Run(s, cfg, steps), DoneIn(steps, done), m)
  }

  /** One more step in front. */
  lemma BreaksAfter(s: State, cfg: Settings, step: Step, steps: seq<Step>, done: set<nat>, m: nat)
    requires Enabled(s, cfg, step) && Safe(s, cfg, step, m)
    requires Breaks(Next(s, cfg, step), cfg, steps, DoneAfter(done, step), m)
    ensures Breaks(s, cfg, [step] + steps, done, m)
  {
    var all := [step] + steps;
    assert all[0] == step && all[1..] == steps;
  }

  lemma BothFatesBreak(s: State, cfg: Settings, done: set<nat>, m: nat)
    requires m < s.topic.cursor && m in done && m in s.dead
    ensures Breaks(s, cfg, [], done, m)
  {
  }

  function Burial(cfg: Settings, g: Handover): seq<Step>
  {
    if Reported(cfg, g) > cfg.maxDelivery then [Bury(g)] else [Dispatch(g, false), Bury(g)]
  }

  /** A processed message is dead-lettered through another hand-over. */
  lemma BurialBreaks(s: State, cfg: Settings, g: Handover, done: set<nat>)
    requires g.msg < s.topic.cursor <= |s.topic.messages| && g.msg in done && InHand(s, g.msg, g)
    requires s.inbox[g].Waiting? && Reported(cfg, g) >= cfg.maxDelivery
    ensures Breaks(s, cfg, Burial(cfg, g), done, g.msg)
  {
    if Reported(cfg, g) > cfg.maxDelivery {
      BothFatesBreak(Next(s, cfg, Bury(g)), cfg, done, g.msg);
      BreaksAfter(s, cfg, Bury(g), [], done, g.msg);
    } else {
      var t := Next(s, cfg, Dispatch(g, false));
      BothFatesBreak(Next(t, cfg, Bury(g)), cfg, done, g.msg);
      BreaksAfter(t, cfg, Bury(g), [], done, g.msg);
      BreaksAfter(s, cfg, Dispatch(g, false), [Bury(g)], done, g.msg);
    }
  }

  /** How a contested claim goes wrong: at most three steps, none of them a claim or a crash. */
  function Trap(cfg: Settings, h: Handover, stage: Stage, g: Handover): seq<Step>
  {
    match stage
    case Handled => Burial(cfg, g)
    case Waiting => [Dispatch(h, true)] + Burial(cfg, g)
    case Raised => [Dispatch(g, true), Bury(h)]
    case Rejected => [Dispatch(g, true)]
  }

  lemma TrapBreaks(t: State, cfg: Settings, h: Handover, g: Handover, done: set<nat>)
    requires Inv(t, cfg) && h != g && h.msg == g.msg && InHand(t, g.msg, h) && InHand(t, g.msg, g)
    requires t.inbox[g].Waiting? && Clashes(cfg, h, t.inbox[h], g)
    requires t.inbox[h].Handled? ==> h.msg in done
    ensures Breaks(t, cfg, Trap(cfg, h, t.inbox[h], g), done, g.msg)
  {
    assert HandoverOk(t, h) && HandoverOk(t, g);
    match t.inbox[h] {
      case Handled => BurialBreaks(t, cfg, g, done);
      case Waiting =>
        BurialBreaks(Next(t, cfg, Dispatch(h, true)), cfg, g, done + {h.msg});
        BreaksAfter(t, cfg, Dispatch(h, true), Burial(cfg, g), done, h.msg);
      case Raised =>
        var t1 := Next(t, cfg, Dispatch(g, true));
        BothFatesBreak(Next(t1, cfg, Bury(h)), cfg, done + {g.msg}, g.msg);
        BreaksAfter(t1, cfg, Bury(h), [], done + {g.msg}, g.msg);
        BreaksAfter(t, cfg, Dispatch(g, true), [Bury(h)], done, g.msg);
      case Rejected =>
        BothFatesBreak(Next(t, cfg, Dispatch(g, true)), cfg, done + {g.msg}, g.msg);
        BreaksAfter(t, cfg, Dispatch(g, true), [], done, g.msg);
    }
  }

  lemma TrapIsPlain(cfg: Settings, h: Handover, stage: Stage, g: Handover)
    ensures var steps := Trap(cfg, h, stage, g);
            |steps| <= 3 && forall k :: 0 <= k < |steps| ==> !steps[k].Claim? && !steps[k].Lose?
  {
  }

  /** After a claim the other hand-overs are as they were, beside a new one. */
  lemma ClaimAdds(s: State, cfg: Settings, m: nat, h: Handover)
    requires Inv(s, cfg) && m in s.topic.pending && InHand(s, m, h)
    ensures var t := Next(s, cfg, Claim(m));
            && Claimed(s, m) != h && InHand(t, m, h) && t.inbox[h] == s.inbox[h]
            && InHand(t, m, Claimed(s, m)) && t.inbox[Claimed(s, m)].Waiting?
  {
    assert HandoverOk(s, h);
  }

  lemma ContestedBreaks(s: State, cfg: Settings, done: set<nat>, m: nat) returns (more: seq<Step>)
    requires Inv(s, cfg) && Sound(s, cfg, done, m) && m in s.topic.pending && Contested(s, cfg, m)
    ensures Breaks(Next(s, cfg, Claim(m)), cfg, more, done, m) && |more| <= 3
    ensures forall k :: 0 <= k < |more| ==> !more[k].Claim? && !more[k].Lose?
  {
    var g := Claimed(s, m);
    var h :| InHand(s, m, h) && Clashes(cfg, h, s.inbox[h], g);
    ClaimAdds(s, cfg, m, h);
    ClaimKeeps(s, cfg, m);
    more := Trap(cfg, h, s.inbox[h], g);
    TrapBreaks(Next(s, cfg, Claim(m)), cfg, h, g, done);
    TrapIsPlain(cfg, h, s.inbox[h], g);
  }

  /** After a crash that forgets, the rest may crash too, and the message waits undecided though it is decided. */
  lemma ForgettingBreaks(s: State, cfg: Settings, lost: set<Handover>, done: set<nat>, m: nat) returns (more: seq<Step>)
    requires Inv(s, cfg) && Sound(s, cfg, done, m) && Forgets(s, lost, m)
    ensures Breaks(Next(s, cfg, Lose(lost)), cfg, more, done, m)
  {
    var t := Next(s, cfg, Lose(lost));
    var h :| InHand(s, m, h) && Decided(s.inbox[h]);
    assert HandoverOk(s, h);
    var rest := t.inbox.Keys;
    assert !Forgets(t, rest, m);
    var t1 := Next(t, cfg, Lose(rest));
    assert Breaks(t1, cfg, [], done, m);
    BreaksAfter(t, cfg, Lose(rest), [], done, m);
    more := [Lose(rest)] + [];
  }

  /** Every safe continuation leaves the message one fate. */
  ghost predicate StaysOneFate(s: State, cfg: Settings, done: set<nat>, m: nat)
  {
    forall more :: ValidRun(s, cfg, more) && SafeRun(s, cfg, more, m) ==>
      OneFate(Run(s, cfg, more), DoneIn(more, done), m)
  }

  /**
    * The condition is exact: after any run of safe steps, a step leaves the message one fate in every safe
    * continuation if and only if the step is itself safe.
    */
  lemma SafeIffOneFate(cfg: Settings, steps: seq<Step>, step: Step, m: nat)
    requires ValidRun(EMPTY, cfg, steps) && SafeRun(EMPTY, cfg, steps, m)
    requires Enabled(Run(EMPTY, cfg, steps), cfg, step)
    ensures var s := Run(EMPTY, cfg, steps);
            Safe(s, cfg, step, m) <==>
            StaysOneFate(Next(s, cfg, step), cfg, DoneAfter(DoneIn(steps, {}), step), m)
  {
    var s, done := Run(EMPTY, cfg, steps), DoneIn(steps, {});
    RunKeepsSound(EMPTY, cfg, steps, {}, m);
    if Safe(s, cfg, step, m) {
      StepKeeps(s, cfg, step);
      StepKeepsSound(s, cfg, step, done, m);
      SoundStays(Next(s, cfg, step), cfg, DoneAfter(done, step), m);
    } else if step.Claim? {
      var more := ContestedBreaks(s, cfg, done, m);
    } else {
      var more := ForgettingBreaks(s, cfg, step.handovers, done, m);
    }
  }

  lemma SoundStays(s: State, cfg: Settings, done: set<nat>, m: nat)
    requires Inv(s, cfg) && Sound(s, cfg, done, m)
    ensures StaysOneFate(s, cfg, done, m)
  {
    forall more | ValidRun(s, cfg, more) && SafeRun(s, cfg, more, m)
      ensures OneFate(Run(s, cfg, more), DoneIn(more, done), m)
    {
      RunKeepsSound(s, cfg, more, done, m);
      SoundMeansOneFate(Run(s, cfg, more), cfg, DoneIn(more, done), m);
    }
  }

  // ---- competing consumers: both fates at once ----

  const CFG: Settings := Settings(2, false)
  const EVENT: Event := TxBroadcasted(0)

  /** A message published and read, then claimed while still in hand: two hand-overs of it. */
  const IN_TWO_HANDS: State :=
    EMPTY.(outbox := [OutboxRow(EVENT, false, 0)], marks := {0}, topic := Topic([EVENT], 1, map[0 := 2]),
           inbox := map[Handover(0, 1) := Waiting, Handover(0, 2) := Waiting])

  lemma InTwoHandsIsReachable()
    ensures Reachable(IN_TWO_HANDS, CFG)
  {
    EmptyIsReachable(CFG);
    var s1 := EMPTY.(outbox := [OutboxRow(EVENT, false, 0)]);
    ReachTo(EMPTY, CFG, Commit(EVENT), s1);
    var s2 := s1.(marks := {0}, topic := Topic([EVENT], 0, map[]));
    ReachTo(s1, CFG, RelayPublish(0), s2);
    var s3 := s2.(topic := Topic([EVENT], 1, map[0 := 1]), inbox := map[Handover(0, 1) := Waiting]);
    ReadOne(s2);
    ReachTo(s2, CFG, Read(1), s3);
    ReachTo(s3, CFG, Claim(0), IN_TWO_HANDS);
  }

  lemma ReadOne(s: State)
    requires s.topic == Topic([EVENT], 0, map[]) && s.inbox == map[]
    ensures Next(s, CFG, Read(1)) ==
            s.(topic := Topic([EVENT], 1, map[0 := 1]), inbox := map[Handover(0, 1) := Waiting])
  {
    assert Unread(s.topic, 1) == {0} by { assert InBatch(s.topic, 1, 0); }
    assert Fresh(s.topic, 1) == {Handover(0, 1)};
  }

  /** One consumer succeeds and the other fails at the limit: the message is processed and dead-lettered. */
  lemma CompetingConsumersTwoFates()
    ensures exists s :: Reachable(s, CFG) && 0 in s.dead && Id(EVENT) in s.processed
  {
    InTwoHandsIsReachable();
    var first, second := Handover(0, 1), Handover(0, 2);
    var s1 := IN_TWO_HANDS.(processed := {Id(EVENT)}, calls := {first},
                            inbox := map[first := Handled, second := Waiting]);
    ReachTo(IN_TWO_HANDS, CFG, Dispatch(first, true), s1);
    var s2 := s1.(calls := {first, second}, inbox := map[first := Handled, second := Raised]);
    ReachTo(s1, CFG, Dispatch(second, false), s2);
    var s3 := s2.(dead := {0}, inbox := map[first := Handled, second := Rejected]);
    ReachTo(s2, CFG, Bury(second), s3);
  }
}
