/**
  * The single consumer of the code: its ticks start with nothing in hand and claim each idle message once,
  * so every step they take is safe for every message.
  */
module OneConsumer {
  import opened Events
  import opened Delivery
  import opened DeliveryFates
  import EventBus

  /** No crash, and a message is claimed only when no hand-over of it is in progress. */
  ghost predicate Patient(s: State, step: Step)
  {
    && !step.Lose?
    && (step.Claim? ==> forall h :: !InHand(s, step.msg, h))
  }

  ghost predicate PatientRun(s: State, cfg: Settings, steps: seq<Step>)
    requires ValidRun(s, cfg, steps)
    decreases |steps|
  {
    steps == [] || (Patient(s, steps[0]) && PatientRun(Next(s, cfg, steps[0]), cfg, steps[1..]))
  }

  lemma {:induction false} PatientIsSafe(s: State, cfg: Settings, steps: seq<Step>, m: nat)
    requires ValidRun(s, cfg, steps) && PatientRun(s, cfg, steps)
    ensures SafeRun(s, cfg, steps, m)
    decreases |steps|
  {
    if steps != [] {
      PatientIsSafe(Next(s, cfg, steps[0]), cfg, steps[1..], m);
    }
  }

  lemma {:induction false} PatientConcat(s: State, cfg: Settings, a: seq<Step>, b: seq<Step>)
    requires ValidRun(s, cfg, a) && PatientRun(s, cfg, a)
    requires ValidRun(Run(s, cfg, a), cfg, b) && PatientRun(Run(s, cfg, a), cfg, b)
    ensures ValidRun(s, cfg, a + b) && Run(s, cfg, a + b) == Run(Run(s, cfg, a), cfg, b)
    ensures PatientRun(s, cfg, a + b)
    decreases |a|
  {
    if a == [] {
      assert [] + b == b;
    } else {
      PatientConcat(Next(s, cfg, a[0]), cfg, a[1..], b);
      assert (a + b)[0] == a[0] && (a + b)[1..] == a[1..] + b;
    }
  }

  // ---- one tick ----

  /** Neither a claim nor a crash. */
  predicate Plain(steps: seq<Step>) { forall step :: step in steps ==> !step.Claim? && !step.Lose? }

  lemma {:induction false} PlainIsPatient(s: State, cfg: Settings, steps: seq<Step>)
    requires ValidRun(s, cfg, steps) && Plain(steps)
    ensures PatientRun(s, cfg, steps)
    decreases |steps|
  {
    if steps != [] {
      assert steps[0] in steps;
      PlainIsPatient(Next(s, cfg, steps[0]), cfg, steps[1..]);
    }
  }

  lemma {:induction false} HandlingIsPlain(cfg: Settings, hs: seq<Handover>, verdict: Handover -> bool)
    ensures Plain(EventBus.AllHandled(cfg, hs, verdict))
  {
    if hs != [] {
      HandlingIsPlain(cfg, hs[..|hs| - 1], verdict);
    }
  }

  /** What is in hand after some claims came from one of them. */
  lemma {:induction false} ClaimsArePatient(s: State, cfg: Settings, idle: seq<nat>)
    requires s.inbox == map[] && EventBus.NoRepeats(idle) && forall m :: m in idle ==> m in s.topic.pending
    ensures ValidRun(s, cfg, EventBus.StaleClaims(idle)) && PatientRun(s, cfg, EventBus.StaleClaims(idle))
    ensures var t := Run(s, cfg, EventBus.StaleClaims(idle));
            t.topic.pending.Keys == s.topic.pending.Keys && forall h :: h in t.inbox ==> h.msg in idle
    decreases |idle|
  {
    if idle != [] {
      var front, last := idle[..|idle| - 1], idle[|idle| - 1];
      assert idle == front + [last];
      ClaimsArePatient(s, cfg, front);
      var t := Run(s, cfg, EventBus.StaleClaims(front));
      forall h | h in t.inbox ensures h.msg != last {
        var k :| 0 <= k < |front| && front[k] == h.msg;
        assert idle[k] == h.msg;
      }
      EventBus.OneStep(t, cfg, Claim(last));
      assert PatientRun(t, cfg, [Claim(last)]);
      PatientConcat(s, cfg, EventBus.StaleClaims(front), [Claim(last)]);
    }
  }

  lemma TickIsPatient(
      s: State, cfg: Settings, idle: seq<nat>, count: nat, hs: seq<Handover>, verdict: Handover -> bool)
    requires EventBus.TickOk(s, cfg, idle, count, hs, verdict)
    ensures PatientRun(s, cfg, EventBus.TickSteps(cfg, idle, count, hs, verdict))
  {
    var claims, rest := EventBus.StaleClaims(idle), [Read(count)] + EventBus.AllHandled(cfg, hs, verdict);
    var steps := EventBus.TickSteps(cfg, idle, count, hs, verdict);
    assert steps == claims + rest;
    ClaimsArePatient(s, cfg, idle);
    ValidSuffix(s, cfg, claims, rest);
    HandlingIsPlain(cfg, hs, verdict);
    PlainIsPatient(Run(s, cfg, claims), cfg, rest);
    PatientConcat(s, cfg, claims, rest);
  }

  lemma {:induction false} ValidSuffix(s: State, cfg: Settings, a: seq<Step>, b: seq<Step>)
    requires ValidRun(s, cfg, a) && ValidRun(s, cfg, a + b)
    ensures ValidRun(Run(s, cfg, a), cfg, b)
    decreases |a|
  {
    if a == [] {
      assert a + b == b;
    } else {
      assert (a + b)[0] == a[0] && (a + b)[1..] == a[1..] + b;
      ValidSuffix(Next(s, cfg, a[0]), cfg, a[1..], b);
    }
  }

  // ---- any sequence of ticks, with any steps of the producers between them ----

  datatype Turn =
    | Produce(step: Step)
    | Tick(idle: seq<nat>, count: nat, hs: seq<Handover>, verdict: Handover -> bool)

  function StepsOf(cfg: Settings, turn: Turn): seq<Step>
  {
    match turn
    case Produce(step) => [step]
    case Tick(idle, count, hs, verdict) => EventBus.TickSteps(cfg, idle, count, hs, verdict)
  }

  ghost predicate TurnOk(s: State, cfg: Settings, turn: Turn)
  {
    match turn
    case Produce(step) =>
      && Enabled(s, cfg, step)
      && (step.Commit? || step.RelayPublish? || step.RelayFail? || step.RelayCommit? || step.RelayCrash?)
    case Tick(idle, count, hs, verdict) => EventBus.TickOk(s, cfg, idle, count, hs, verdict)
  }

  lemma TurnIsPatient(s: State, cfg: Settings, turn: Turn)
    requires TurnOk(s, cfg, turn) && s.inbox == map[]
    ensures ValidRun(s, cfg, StepsOf(cfg, turn)) && PatientRun(s, cfg, StepsOf(cfg, turn))
    ensures Run(s, cfg, StepsOf(cfg, turn)).inbox == map[]
  {
    match turn
    case Produce(step) =>
      EventBus.OneStep(s, cfg, step);
      PlainIsPatient(s, cfg, [step]);
    case Tick(idle, count, hs, verdict) => TickIsPatient(s, cfg, idle, count, hs, verdict);
  }

  ghost predicate TurnsOk(s: State, cfg: Settings, turns: seq<Turn>)
    decreases |turns|
  {
    turns == [] ||
    (TurnOk(s, cfg, turns[0]) && ValidRun(s, cfg, StepsOf(cfg, turns[0]))
     && TurnsOk(Run(s, cfg, StepsOf(cfg, turns[0])), cfg, turns[1..]))
  }

  function AllSteps(cfg: Settings, turns: seq<Turn>): seq<Step>
    decreases |turns|
  {
    if turns == [] then [] else StepsOf(cfg, turns[0]) + AllSteps(cfg, turns[1..])
  }

  lemma {:induction false} TurnsArePatient(s: State, cfg: Settings, turns: seq<Turn>)
    requires TurnsOk(s, cfg, turns) && s.inbox == map[]
    ensures ValidRun(s, cfg, AllSteps(cfg, turns)) && PatientRun(s, cfg, AllSteps(cfg, turns))
    ensures Run(s, cfg, AllSteps(cfg, turns)).inbox == map[]
    decreases |turns|
  {
    if turns != [] {
      TurnIsPatient(s, cfg, turns[0]);
      TurnsArePatient(Run(s, cfg, StepsOf(cfg, turns[0])), cfg, turns[1..]);
      PatientConcat(s, cfg, StepsOf(cfg, turns[0]), AllSteps(cfg, turns[1..]));
    }
  }

  /**
    * With the one consumer of the code, after any ticks and any steps of the producers, each message read is
    * exactly one of pending, processed and dead-lettered.
    */
  lemma OneConsumerOneFate(cfg: Settings, turns: seq<Turn>, m: nat)
    requires TurnsOk(EMPTY, cfg, turns)
    ensures ValidRun(EMPTY, cfg, AllSteps(cfg, turns))
    ensures var s := Run(EMPTY, cfg, AllSteps(cfg, turns));
            var done := DoneIn(AllSteps(cfg, turns), {});
            m < s.topic.cursor ==>
              && (m in s.topic.pending || m in done || m in s.dead)
              && !(m in s.topic.pending && m in done)
              && !(m in s.topic.pending && m in s.dead)
              && !(m in done && m in s.dead)
  {
    TurnsArePatient(EMPTY, cfg, turns);
    PatientIsSafe(EMPTY, cfg, AllSteps(cfg, turns), m);
    ExactlyOneFate(cfg, AllSteps(cfg, turns), m);
  }
}
