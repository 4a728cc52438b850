/**
  * Outbox relay, one bus topic (a stream and its consumer group) and the consumers of that group, as
  * a protocol in which any process may crash between any two steps. Database tables and the bus
  * survive a crash; a relay's uncommitted marks and a consumer's batch do not.
  */
module Delivery {
  import opened Events

  datatype OutboxRow = OutboxRow(event: Event, published: bool, attempts: nat)

  /** Message ids are positions. Read messages stay in `pending` with their delivery count until acked. */
  datatype Topic = Topic(messages: seq<Event>, cursor: nat, pending: map<nat, nat>)

  /** One hand-over of a message to a consumer; `count` is its delivery count. */
  datatype Handover = Handover(msg: nat, count: nat)

  /** `Raised`: the last allowed dispatch failed and the message is not dead-lettered yet. */
  datatype Stage = Waiting | Handled | Raised | Rejected

  /** `countLag`: the bus reports the count from before a claim, as the Redis adapter does. */
  datatype Settings = Settings(maxDelivery: nat, countLag: bool)

  datatype State = State(
    outbox: seq<OutboxRow>,
    marks: set<nat>,
    topic: Topic,
    inbox: map<Handover, Stage>,
    processed: set<EventId>,
    dead: set<nat>,
    calls: set<Handover>)

  // ---- the topic (InMemoryBus) ----

  function Publish(t: Topic, e: Event): Topic { t.(messages := t.messages + [e]) }

  function ReadEnd(t: Topic, count: nat): nat
  {
    if t.cursor + count <= |t.messages| then t.cursor + count else |t.messages|
  }

  function ReadNew(t: Topic, count: nat): Topic
  {
    t.(cursor := ReadEnd(t, count), pending := t.pending + map i | i in Unread(t, count) :: 1)
  }

  predicate InBatch(t: Topic, count: nat, i: nat) { t.cursor <= i < ReadEnd(t, count) }

  function Unread(t: Topic, count: nat): set<nat> { set i | 0 <= i < |t.messages| && InBatch(t, count, i) }

  function ClaimStale(t: Topic, msg: nat): Topic
    requires msg in t.pending
  {
    t.(pending := t.pending[msg := t.pending[msg] + 1])
  }

  function Ack(t: Topic, msg: nat): Topic { t.(pending := t.pending - {msg}) }

  // ---- the runtime (ConsumerRuntime) ----

  function Reported(cfg: Settings, h: Handover): nat
  {
    if cfg.countLag && h.count > 1 then h.count - 1 else h.count
  }

  // ---- steps ----

  datatype Step =
    | Commit(event: Event)
    | RelayPublish(row: nat)
    | RelayFail(row: nat)
    | RelayCommit
    | RelayCrash
    | Read(count: nat)
    | Claim(msg: nat)
    | Dispatch(handover: Handover, ok: bool)
    | Bury(handover: Handover)
    | Acknowledge(handover: Handover)
    | Lose(handovers: set<Handover>)

  predicate Enabled(s: State, cfg: Settings, step: Step)
  {
    match step
    case RelayPublish(i) => i < |s.outbox| && !s.outbox[i].published && i !in s.marks
    case RelayFail(i) => i < |s.outbox| && !s.outbox[i].published
    case Claim(m) => m in s.topic.pending
    case Dispatch(h, _) =>
      h in s.inbox && s.inbox[h].Waiting? && h.msg < |s.topic.messages| && Reported(cfg, h) <= cfg.maxDelivery
    case Bury(h) =>
      h in s.inbox && (s.inbox[h].Raised? || (s.inbox[h].Waiting? && Reported(cfg, h) > cfg.maxDelivery))
    case Acknowledge(h) => h in s.inbox && (s.inbox[h].Handled? || s.inbox[h].Rejected?)
    case _ => true
  }

  function Next(s: State, cfg: Settings, step: Step): State
    requires Enabled(s, cfg, step)
  {
    match step
    case Commit(e) =>
      if exists r :: r in s.outbox && Id(r.event) == Id(e) then s
      else s.(outbox := s.outbox + [OutboxRow(e, false, 0)])
    case RelayPublish(i) => s.(topic := Publish(s.topic, s.outbox[i].event), marks := s.marks + {i})
    case RelayFail(i) => s.(outbox := s.outbox[i := s.outbox[i].(attempts := s.outbox[i].attempts + 1)])
    case RelayCommit =>
      s.(outbox := seq(|s.outbox|, i requires 0 <= i < |s.outbox| =>
                         if i in s.marks then s.outbox[i].(published := true) else s.outbox[i]),
         marks := {})
    case RelayCrash => s.(marks := {})
    case Read(count) =>
      s.(topic := ReadNew(s.topic, count),
         inbox := s.inbox + map h | h in Fresh(s.topic, count) :: Waiting)
    case Claim(m) =>
      s.(topic := ClaimStale(s.topic, m), inbox := s.inbox[Handover(m, s.topic.pending[m] + 1) := Waiting])
    case Dispatch(h, ok) =>
      var called := s.(calls := s.calls + {h});
      if ok then called.(processed := s.processed + {Id(s.topic.messages[h.msg])}, inbox := s.inbox[h := Handled])
      else if Reported(cfg, h) >= cfg.maxDelivery then called.(inbox := s.inbox[h := Raised])
      else called.(inbox := s.inbox - {h})
    case Bury(h) => s.(dead := s.dead + {h.msg}, inbox := s.inbox[h := Rejected])
    case Acknowledge(h) => s.(topic := Ack(s.topic, h.msg), inbox := s.inbox - {h})
    case Lose(hs) => s.(inbox := s.inbox - hs)
  }

  function Fresh(t: Topic, count: nat): set<Handover>
  {
    set i | i in Unread(t, count) :: Handover(i, 1)
  }

  ghost predicate ValidRun(s: State, cfg: Settings, steps: seq<Step>)
    decreases |steps|
  {
    steps == [] || (Enabled(s, cfg, steps[0]) && ValidRun(Next(s, cfg, steps[0]), cfg, steps[1..]))
  }

  ghost function Run(s: State, cfg: Settings, steps: seq<Step>): State
    requires ValidRun(s, cfg, steps)
    decreases |steps|
  {
    if steps == [] then s else Run(Next(s, cfg, steps[0]), cfg, steps[1..])
  }

  // ---- runs grow at their end ----

  lemma {:induction false} RunSnoc(s: State, cfg: Settings, steps: seq<Step>, step: Step)
    requires ValidRun(s, cfg, steps) && Enabled(Run(s, cfg, steps), cfg, step)
    ensures ValidRun(s, cfg, steps + [step])
    ensures Run(s, cfg, steps + [step]) == Next(Run(s, cfg, steps), cfg, step)
    decreases |steps|
  {
    if steps == [] {
      assert [] + [step] == [step] && [step][1..] == [];
    } else {
      RunSnoc(Next(s, cfg, steps[0]), cfg, steps[1..], step);
      assert (steps + [step])[1..] == steps[1..] + [step];
    }
  }

  lemma {:induction false} RunConcat(s: State, cfg: Settings, a: seq<Step>, b: seq<Step>)
    requires ValidRun(s, cfg, a) && ValidRun(Run(s, cfg, a), cfg, b)
    ensures ValidRun(s, cfg, a + b) && Run(s, cfg, a + b) == Run(Run(s, cfg, a), cfg, b)
    decreases |a|
  {
    if a == [] {
      assert [] + b == b;
    } else {
      RunConcat(Next(s, cfg, a[0]), cfg, a[1..], b);
      assert (a + b)[1..] == a[1..] + b;
    }
  }

  const EMPTY: State := State([], {}, Topic([], 0, map[]), map[], {}, {}, {})

  ghost predicate Reachable(s: State, cfg: Settings)
  {
    exists steps :: ValidRun(EMPTY, cfg, steps) && Run(EMPTY, cfg, steps) == s
  }

  lemma EmptyIsReachable(cfg: Settings)
    ensures Reachable(EMPTY, cfg)
  {
    assert ValidRun(EMPTY, cfg, []) && Run(EMPTY, cfg, []) == EMPTY;
  }

  lemma ReachTo(s: State, cfg: Settings, step: Step, t: State)
    requires Reachable(s, cfg) && Enabled(s, cfg, step) && Next(s, cfg, step) == t
    ensures Reachable(t, cfg)
  {
    var steps :| ValidRun(EMPTY, cfg, steps) && Run(EMPTY, cfg, steps) == s;
    RunSnoc(EMPTY, cfg, steps, step);
  }

  // ---- invariant ----

  ghost predicate InStream(s: State, e: Event) { e in s.topic.messages }

  /** A message that left `pending` was processed or dead-lettered. */
  ghost predicate Accounted(s: State, m: nat)
    requires m < |s.topic.messages|
  {
    m >= s.topic.cursor || m in s.topic.pending || Id(s.topic.messages[m]) in s.processed || m in s.dead
  }

  ghost predicate Inv(s: State, cfg: Settings)
  {
    && s.topic.cursor <= |s.topic.messages|
    && (forall i :: i in s.marks ==> i < |s.outbox|)
    && (forall i :: 0 <= i < |s.outbox| && (s.outbox[i].published || i in s.marks) ==> InStream(s, s.outbox[i].event))
    && (forall m :: 0 <= m < |s.topic.messages| ==> Accounted(s, m))
    && (forall m :: m in s.topic.pending ==> m < s.topic.cursor && s.topic.pending[m] >= 1)
    && (forall h :: h in s.inbox ==> HandoverOk(s, h))
    && (forall h :: h in s.calls ==> CallOk(s, cfg, h))
    && (forall h :: h in s.inbox && s.inbox[h].Waiting? ==> h !in s.calls)
  }

  ghost predicate HandoverOk(s: State, h: Handover)
    requires h in s.inbox
  {
    && h.msg < s.topic.cursor && h.count >= 1
    && (h.msg in s.topic.pending ==> h.count <= s.topic.pending[h.msg])
    && (s.inbox[h].Handled? ==> h.msg < |s.topic.messages| && Id(s.topic.messages[h.msg]) in s.processed)
    && (s.inbox[h].Rejected? ==> h.msg in s.dead)
  }

  ghost predicate CallOk(s: State, cfg: Settings, h: Handover)
  {
    && h.msg < s.topic.cursor && 1 <= h.count && Reported(cfg, h) <= cfg.maxDelivery
    && (h.msg in s.topic.pending ==> h.count <= s.topic.pending[h.msg])
  }

  lemma RelayKeeps(s: State, cfg: Settings, step: Step)
    requires Inv(s, cfg) && Enabled(s, cfg, step)
    requires step.Commit? || step.RelayPublish? || step.RelayFail? || step.RelayCommit? || step.RelayCrash?
    ensures Inv(Next(s, cfg, step), cfg)
  {
    var t := Next(s, cfg, step);
    assert s.topic.messages <= t.topic.messages;
    forall i | 0 <= i < |t.outbox| && (t.outbox[i].published || i in t.marks) ensures InStream(t, t.outbox[i].event) {
      if step.RelayPublish? && i == step.row {
        assert t.topic.messages[|s.topic.messages|] == s.outbox[i].event;
      } else {
        assert i < |s.outbox| && t.outbox[i].event == s.outbox[i].event;
        assert InStream(s, s.outbox[i].event);
      }
    }
    forall m | 0 <= m < |t.topic.messages| ensures Accounted(t, m) {
      assert m < |s.topic.messages| ==> Accounted(s, m);
    }
    forall h | h in t.inbox ensures HandoverOk(t, h) {
      assert HandoverOk(s, h);
    }
    forall h | h in t.calls ensures CallOk(t, cfg, h) {
      assert CallOk(s, cfg, h);
    }
  }

  lemma ReadKeeps(s: State, cfg: Settings, count: nat)
    requires Inv(s, cfg)
    ensures Inv(Next(s, cfg, Read(count)), cfg)
  {
    var t := Next(s, cfg, Read(count));
    forall m | 0 <= m < |t.topic.messages| ensures Accounted(t, m) {
      assert Accounted(s, m);
    }
    forall h | h in t.inbox ensures HandoverOk(t, h) {
      assert h in s.inbox ==> HandoverOk(s, h);
    }
    forall h | h in t.calls ensures CallOk(t, cfg, h) && h !in Fresh(s.topic, count) {
      assert CallOk(s, cfg, h);
    }
  }

  lemma ClaimKeeps(s: State, cfg: Settings, m: nat)
    requires Inv(s, cfg) && m in s.topic.pending
    ensures Inv(Next(s, cfg, Claim(m)), cfg)
  {
    var t := Next(s, cfg, Claim(m));
    forall x | 0 <= x < |t.topic.messages| ensures Accounted(t, x) {
      assert Accounted(s, x);
    }
    forall h | h in t.inbox ensures HandoverOk(t, h) {
      assert h in s.inbox ==> HandoverOk(s, h);
    }
    forall h | h in t.calls ensures CallOk(t, cfg, h) {
      assert CallOk(s, cfg, h);
    }
  }

  lemma ConsumerKeeps(s: State, cfg: Settings, step: Step)
    requires Inv(s, cfg) && Enabled(s, cfg, step)
    requires step.Dispatch? || step.Bury? || step.Acknowledge? || step.Lose?
    ensures Inv(Next(s, cfg, step), cfg)
  {
    var t := Next(s, cfg, step);
    if step.Acknowledge? {
      assert HandoverOk(s, step.handover);
    }
    if step.Dispatch? {
      assert HandoverOk(s, step.handover);
    }
    forall x | 0 <= x < |t.topic.messages| ensures Accounted(t, x) {
      assert Accounted(s, x);
    }
    forall h | h in t.inbox ensures HandoverOk(t, h) {
      assert HandoverOk(s, h);
    }
    forall h | h in t.calls ensures CallOk(t, cfg, h) {
      assert h in s.calls ==> CallOk(s, cfg, h);
    }
  }

  lemma StepKeeps(s: State, cfg: Settings, step: Step)
    requires Inv(s, cfg) && Enabled(s, cfg, step)
    ensures Inv(Next(s, cfg, step), cfg)
  {
    match step
    case Read(count) => ReadKeeps(s, cfg, count);
    case Claim(m) => ClaimKeeps(s, cfg, m);
    case Dispatch(_, _) => ConsumerKeeps(s, cfg, step);
    case Bury(_) => ConsumerKeeps(s, cfg, step);
    case Acknowledge(_) => ConsumerKeeps(s, cfg, step);
    case Lose(_) => ConsumerKeeps(s, cfg, step);
    case _ => RelayKeeps(s, cfg, step);
  }

  lemma {:induction false} RunKeeps(s: State, cfg: Settings, steps: seq<Step>)
    requires Inv(s, cfg) && ValidRun(s, cfg, steps)
    ensures Inv(Run(s, cfg, steps), cfg)
    decreases |steps|
  {
    if steps != [] {
      StepKeeps(s, cfg, steps[0]);
      RunKeeps(Next(s, cfg, steps[0]), cfg, steps[1..]);
    }
  }

  /**
    * No event is lost. In every run with arbitrary crashes, each committed event is unpublished in the
    * outbox, or in the stream; and each message is unread, pending, processed or dead-lettered.
    */
  lemma NoEventIsLost(cfg: Settings, steps: seq<Step>)
    requires ValidRun(EMPTY, cfg, steps)
    ensures var s := Run(EMPTY, cfg, steps);
            && (forall i :: 0 <= i < |s.outbox| ==> !s.outbox[i].published || InStream(s, s.outbox[i].event))
            && (forall m :: 0 <= m < |s.topic.messages| ==> Accounted(s, m))
  {
    RunKeeps(EMPTY, cfg, steps);
  }

  // ---- bounded delivery ----

  function CallsOf(calls: set<Handover>, m: nat): set<Handover> { set h | h in calls && h.msg == m }

  /** Counts of one message up to `n`. */
  function UpTo(m: nat, n: nat): set<Handover> { set k | 1 <= k <= n :: Handover(m, k) }

  lemma {:induction false} UpToSize(m: nat, n: nat)
    ensures |UpTo(m, n)| == n
  {
    if n == 0 {
      assert UpTo(m, 0) == {};
    } else {
      UpToSize(m, n - 1);
      assert UpTo(m, n) == UpTo(m, n - 1) + {Handover(m, n)};
    }
  }

  /** The most hand-overs of one message that can be dispatched. */
  function Limit(cfg: Settings): nat { cfg.maxDelivery + if cfg.countLag then 1 else 0 }

  lemma SubsetSize<T>(a: set<T>, b: set<T>)
    requires a <= b
    ensures |a| <= |b|
  {
    assert b == a + (b - a);
  }

  /** Every dispatch is a new hand-over, so the size of `calls` counts the dispatches. */
  lemma EveryDispatchIsNew(s: State, cfg: Settings, h: Handover, ok: bool)
    requires Inv(s, cfg) && Enabled(s, cfg, Dispatch(h, ok))
    ensures |CallsOf(Next(s, cfg, Dispatch(h, ok)).calls, h.msg)| == |CallsOf(s.calls, h.msg)| + 1
  {
    assert CallsOf(s.calls + {h}, h.msg) == CallsOf(s.calls, h.msg) + {h};
  }

  /**
    * A message is dispatched at most `max_delivery_count` times per group, whatever crashes and
    * however many consumers compete; one more if the bus reports the count from before the claim.
    */
  lemma DispatchIsBounded(cfg: Settings, steps: seq<Step>, m: nat)
    requires ValidRun(EMPTY, cfg, steps)
    ensures |CallsOf(Run(EMPTY, cfg, steps).calls, m)| <= Limit(cfg)
  {
    RunKeeps(EMPTY, cfg, steps);
    CallsWithinLimit(Run(EMPTY, cfg, steps), cfg, m);
  }

  lemma CallsWithinLimit(s: State, cfg: Settings, m: nat)
    requires Inv(s, cfg)
    ensures CallsOf(s.calls, m) <= UpTo(m, Limit(cfg)) && |CallsOf(s.calls, m)| <= Limit(cfg)
  {
    forall h | h in CallsOf(s.calls, m) ensures h in UpTo(m, Limit(cfg)) {
      assert CallOk(s, cfg, h);
    }
    SubsetSize(CallsOf(s.calls, m), UpTo(m, Limit(cfg)));
    UpToSize(m, Limit(cfg));
  }

  // ---- a message that was acked never comes back ----

  predicate Finished(s: State, m: nat) { m < s.topic.cursor && m !in s.topic.pending }

  /** Once acked, a message is never handed over again. */
  lemma {:induction false} AckedStaysAcked(s: State, cfg: Settings, steps: seq<Step>, m: nat)
    requires ValidRun(s, cfg, steps) && Finished(s, m) && s.topic.cursor <= |s.topic.messages|
    ensures Finished(Run(s, cfg, steps), m)
    ensures forall h :: h in Run(s, cfg, steps).inbox && h.msg == m ==> h in s.inbox
    decreases |steps|
  {
    if steps != [] {
      AckedStaysAcked(Next(s, cfg, steps[0]), cfg, steps[1..], m);
    }
  }
}
