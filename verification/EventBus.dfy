/**
  * The bus, the outbox relay and the consumer runtime as the code runs them. Each whole tick is proved
  * to be a run of the delivery protocol, so no tick loses an event.
  */
module EventBus {
  import opened Events
  import opened Delivery

  // ---- InMemoryBus: one stream and one group ----

  class InMemoryBus {
    var messages: seq<Event>
    var cursor: nat
    var pending: map<nat, nat>
    var deadLetters: seq<Handover>

    function Value(): Topic
      reads this
    {
      Topic(messages, cursor, pending)
    }

    constructor ()
      ensures Value() == Topic([], 0, map[]) && deadLetters == []
    {
      messages, cursor, pending, deadLetters := [], 0, map[], [];
    }

    method Publish(e: Event)
      modifies this`messages
      ensures Value() == Delivery.Publish(old(Value()), e)
    {
      messages := messages + [e];
    }

    /** Hand over the next messages: each once, in order, with delivery count 1. */
    method ReadNew(count: nat) returns (out: seq<Handover>)
      requires cursor <= |messages|
      modifies this`cursor, this`pending
      ensures Value() == Delivery.ReadNew(old(Value()), count)
      ensures |out| == cursor - old(cursor) && forall k :: 0 <= k < |out| ==> out[k] == Handover(old(cursor) + k, 1)
    {
      ghost var t := Value();
      var end := ReadEnd(Value(), count);
      out := [];
      for i := cursor to end
        invariant cursor == old(cursor) && |out| == i - cursor
        invariant forall k :: 0 <= k < |out| ==> out[k] == Handover(cursor + k, 1)
        invariant forall m :: m in pending <==> m in old(pending) || cursor <= m < i
        invariant forall m :: m in pending ==> pending[m] == if cursor <= m < i then 1 else old(pending)[m]
      {
        pending := pending[i := 1];
        out := out + [Handover(i, 1)];
      }
      assert pending == t.pending + map i | i in Unread(t, count) :: 1;
      cursor := end;
    }

    method ClaimOne(m: nat) returns (h: Handover)
      requires m in pending
      modifies this`pending
      ensures Value() == Delivery.ClaimStale(old(Value()), m)
      ensures h == Handover(m, old(pending)[m] + 1)
    {
      pending := pending[m := pending[m] + 1];
      h := Handover(m, pending[m]);
    }

    method Ack(m: nat)
      modifies this`pending
      ensures Value() == Delivery.Ack(old(Value()), m)
    {
      pending := pending - {m};
    }

    method DeadLetter(h: Handover)
      modifies this`deadLetters
      ensures deadLetters == old(deadLetters) + [h]
    {
      deadLetters := deadLetters + [h];
    }
  }

  // ---- OutboxRelay ----

  function RelayStep(i: nat, refused: bool): Step { if refused then RelayFail(i) else RelayPublish(i) }

  function RelaySteps(picked: seq<nat>, refuses: nat -> bool): seq<Step>
  {
    if picked == [] then []
    else RelaySteps(picked[..|picked| - 1], refuses) + [RelayStep(picked[|picked| - 1], refuses(picked[|picked| - 1]))]
  }

  ghost predicate Due(outbox: seq<OutboxRow>, picked: seq<nat>)
  {
    && (forall i, j :: 0 <= i < j < |picked| ==> picked[i] < picked[j])
    && (forall k :: 0 <= k < |picked| ==> picked[k] < |outbox| && !outbox[picked[k]].published)
  }

  /** The events of the accepted rows, in order. */
  function Taken(outbox: seq<OutboxRow>, picked: seq<nat>, refuses: nat -> bool): seq<Event>
    requires forall k :: 0 <= k < |picked| ==> picked[k] < |outbox|
  {
    if picked == [] then []
    else
      var last := picked[|picked| - 1];
      Taken(outbox, picked[..|picked| - 1], refuses) + if refuses(last) then [] else [outbox[last].event]
  }

  /** Refused rows count one attempt more; the others are as they were. */
  ghost predicate Tried(before: seq<OutboxRow>, after: seq<OutboxRow>, picked: seq<nat>, refuses: nat -> bool)
  {
    && |after| == |before|
    && forall i :: 0 <= i < |before| ==>
         after[i] == if i in picked && refuses(i) then before[i].(attempts := before[i].attempts + 1) else before[i]
  }

  ghost predicate OnlyAccepted(picked: seq<nat>, refuses: nat -> bool, succeeded: set<nat>)
  {
    forall i :: i in succeeded <==> i in picked && !refuses(i)
  }

  /** What a tick makes of the rows. */
  ghost predicate Relayed(before: seq<OutboxRow>, after: seq<OutboxRow>, picked: seq<nat>, refuses: nat -> bool)
  {
    && |after| == |before|
    && forall i :: 0 <= i < |before| ==>
         after[i] == if i !in picked then before[i]
                     else if refuses(i) then before[i].(attempts := before[i].attempts + 1)
                     else before[i].(published := true)
  }

  lemma MarkedAreRelayed(
      before: seq<OutboxRow>, mid: seq<OutboxRow>, after: seq<OutboxRow>, picked: seq<nat>, refuses: nat -> bool,
      succeeded: set<nat>)
    requires Tried(before, mid, picked, refuses) && OnlyAccepted(picked, refuses, succeeded) && |after| == |mid|
    requires forall i :: 0 <= i < |mid| ==> after[i] == if i in succeeded then mid[i].(published := true) else mid[i]
    ensures Relayed(before, after, picked, refuses)
  {
  }

  lemma NextIsUntried(
      before: seq<OutboxRow>, now: seq<OutboxRow>, front: seq<nat>, x: nat, refuses: nat -> bool, succeeded: set<nat>)
    requires Tried(before, now, front, refuses) && OnlyAccepted(front, refuses, succeeded)
    requires x < |before| && x !in front
    ensures x < |now| && now[x] == before[x] && x !in succeeded
  {
  }

  lemma TriedSnoc(before: seq<OutboxRow>, now: seq<OutboxRow>, front: seq<nat>, x: nat, refuses: nat -> bool)
    requires Tried(before, now, front, refuses) && x < |before| && x !in front
    ensures var row := before[x];
            var after := if refuses(x) then now[x := row.(attempts := row.attempts + 1)] else now;
            Tried(before, after, front + [x], refuses)
  {
    assert forall i :: i in front + [x] <==> i in front || i == x;
  }

  lemma AcceptedSnoc(front: seq<nat>, x: nat, refuses: nat -> bool, succeeded: set<nat>)
    requires OnlyAccepted(front, refuses, succeeded)
    ensures OnlyAccepted(front + [x], refuses, if refuses(x) then succeeded else succeeded + {x})
  {
    assert forall i :: i in front + [x] <==> i in front || i == x;
  }

  lemma TakenSnoc(outbox: seq<OutboxRow>, front: seq<nat>, x: nat, refuses: nat -> bool)
    requires (forall k :: 0 <= k < |front| ==> front[k] < |outbox|) && x < |outbox|
    ensures Taken(outbox, front + [x], refuses) ==
            Taken(outbox, front, refuses) + if refuses(x) then [] else [outbox[x].event]
  {
    assert (front + [x])[..|front|] == front;
  }

  /** A relay tick that began in `s`, when the rows in `front` were tried. */
  ghost predicate MidTick(
      s: State, v: State, cfg: Settings, front: seq<nat>, refuses: nat -> bool, succeeded: set<nat>)
  {
    && (forall k :: 0 <= k < |front| ==> front[k] < |s.outbox|)
    && Tried(s.outbox, v.outbox, front, refuses) && OnlyAccepted(front, refuses, succeeded)
    && v.topic.messages == s.topic.messages + Taken(s.outbox, front, refuses)
    && ValidRun(s, cfg, RelaySteps(front, refuses)) && v == Run(s, cfg, RelaySteps(front, refuses))
    && v.marks == succeeded
  }

  lemma MidTickSnoc(
      s: State, v: State, cfg: Settings, front: seq<nat>, x: nat, refuses: nat -> bool, succeeded: set<nat>)
    requires MidTick(s, v, cfg, front, refuses, succeeded)
    requires x < |s.outbox| && x !in front && !s.outbox[x].published
    ensures Enabled(v, cfg, RelayStep(x, refuses(x)))
    ensures MidTick(s, Next(v, cfg, RelayStep(x, refuses(x))), cfg, front + [x], refuses,
                    if refuses(x) then succeeded else succeeded + {x})
  {
    NextIsUntried(s.outbox, v.outbox, front, x, refuses, succeeded);
    TriedSnoc(s.outbox, v.outbox, front, x, refuses);
    AcceptedSnoc(front, x, refuses, succeeded);
    TakenSnoc(s.outbox, front, x, refuses);
    assert (front + [x])[..|front|] == front;
    RunSnoc(s, cfg, RelaySteps(front, refuses), RelayStep(x, refuses(x)));
  }

  class OutboxRelay {
    var outbox: seq<OutboxRow>
    const bus: InMemoryBus

    constructor (b: InMemoryBus)
      ensures outbox == [] && bus == b
    {
      outbox, bus := [], b;
    }

    /** The protocol state, given what the consumers hold and the marks of the transaction in progress. */
    ghost function Value(rest: State, marks: set<nat>): State
      reads this, bus
    {
      rest.(outbox := outbox, marks := marks, topic := bus.Value())
    }

    /** `enqueue_event`, inside the caller's transaction: one row per event id, published or not. */
    method EnqueueEvent(e: Event, ghost rest: State, ghost cfg: Settings)
      modifies this`outbox
      ensures Value(rest, {}) == Next(old(Value(rest, {})), cfg, Commit(e))
      ensures outbox == if (exists r :: r in old(outbox) && Id(r.event) == Id(e)) then old(outbox)
                        else old(outbox) + [OutboxRow(e, false, 0)]
    {
      if !(exists r :: r in outbox && Id(r.event) == Id(e)) {
        outbox := outbox + [OutboxRow(e, false, 0)];
      }
    }

    /** One claimed row: publish it, or count the failed attempt. */
    method RelayRow(i: nat, refused: bool, ghost rest: State, ghost marks: set<nat>, ghost cfg: Settings)
      requires i < |outbox| && !outbox[i].published && i !in marks
      modifies this, bus`messages
      ensures Value(rest, if refused then marks else marks + {i}) ==
              Next(old(Value(rest, marks)), cfg, RelayStep(i, refused))
      ensures outbox == if refused then old(outbox)[i := old(outbox)[i].(attempts := old(outbox)[i].attempts + 1)]
                        else old(outbox)
      ensures bus.messages == old(bus.messages) + if refused then [] else [old(outbox)[i].event]
    {
      if refused {
        outbox := outbox[i := outbox[i].(attempts := outbox[i].attempts + 1)];
      } else {
        bus.Publish(outbox[i].event);
      }
    }

    /**
      * One tick: publish row by row, then mark the published rows. The stream grows by the accepted rows' events
      * in the order of the rows; these rows end published, the refused ones count an attempt, no other changes.
      */
    method RunOnce(picked: seq<nat>, refuses: nat -> bool, ghost rest: State, ghost cfg: Settings)
      requires Due(outbox, picked) && Inv(Value(rest, {}), cfg)
      modifies this, bus`messages
      ensures var steps := RelaySteps(picked, refuses) + [RelayCommit];
              ValidRun(old(Value(rest, {})), cfg, steps) && Value(rest, {}) == Run(old(Value(rest, {})), cfg, steps)
      ensures Inv(Value(rest, {}), cfg)
      ensures bus.messages == old(bus.messages) + Taken(old(outbox), picked, refuses)
      ensures Relayed(old(outbox), outbox, picked, refuses)
    {
      ghost var s := Value(rest, {});
      var succeeded := PublishAll(picked, refuses, rest, cfg);
      RunSnoc(s, cfg, RelaySteps(picked, refuses), RelayCommit);
      RunKeeps(s, cfg, RelaySteps(picked, refuses) + [RelayCommit]);
      ghost var mid := outbox;
      MarkPublished(succeeded, rest, cfg);
      MarkedAreRelayed(s.outbox, mid, outbox, picked, refuses, succeeded);
    }

    method MarkPublished(succeeded: set<nat>, ghost rest: State, ghost cfg: Settings)
      modifies this
      ensures Value(rest, {}) == Next(old(Value(rest, succeeded)), cfg, RelayCommit)
      ensures |outbox| == |old(outbox)|
      ensures forall i :: 0 <= i < |outbox| ==>
                outbox[i] == if i in succeeded then old(outbox)[i].(published := true) else old(outbox)[i]
    {
      var rows := outbox;
      outbox := seq(|rows|, i requires 0 <= i < |rows| =>
        if i in succeeded then rows[i].(published := true) else rows[i]);
    }

    method PublishAll(
        picked: seq<nat>, refuses: nat -> bool, ghost rest: State, ghost cfg: Settings) returns (succeeded: set<nat>)
      requires Due(outbox, picked)
      modifies this, bus`messages
      ensures ValidRun(old(Value(rest, {})), cfg, RelaySteps(picked, refuses))
      ensures Value(rest, succeeded) == Run(old(Value(rest, {})), cfg, RelaySteps(picked, refuses))
      ensures Tried(old(outbox), outbox, picked, refuses) && OnlyAccepted(picked, refuses, succeeded)
      ensures bus.messages == old(bus.messages) + Taken(old(outbox), picked, refuses)
    {
      ghost var s := Value(rest, {});
      succeeded := {};
      for i := 0 to |picked|
        invariant MidTick(s, Value(rest, succeeded), cfg, picked[..i], refuses, succeeded)
      {
        assert picked[..i + 1] == picked[..i] + [picked[i]] && picked[i] !in picked[..i];
        ghost var v := Value(rest, succeeded);
        NextIsUntried(s.outbox, v.outbox, picked[..i], picked[i], refuses, succeeded);
        RelayRow(picked[i], refuses(picked[i]), rest, succeeded, cfg);
        MidTickSnoc(s, v, cfg, picked[..i], picked[i], refuses, succeeded);
        if !refuses(picked[i]) {
          succeeded := succeeded + {picked[i]};
        }
      }
      assert picked[..|picked|] == picked;
    }
  }

  // ---- claim_stale: which pending messages are claimed ----

  function IdleIn(order: seq<nat>, idle: nat -> bool): seq<nat>
  {
    if order == [] then []
    else IdleIn(order[..|order| - 1], idle) + if idle(order[|order| - 1]) then [order[|order| - 1]] else []
  }

  /** The loop stops once the batch is full; it looks at the size after each claim, so one is always made. */
  function BatchSize(count: nat): nat { if count == 0 then 1 else count }

  /** The first idle messages in the order of the pending table, as many as fit the batch. */
  ghost predicate Picks(order: seq<nat>, idle: nat -> bool, count: nat, picked: seq<nat>)
  {
    && |picked| <= BatchSize(count)
    && exists n :: 0 <= n <= |order| && picked == IdleIn(order[..n], idle)
                   && (n == |order| || |picked| == BatchSize(count))
  }

  lemma {:induction false} IdleAreListed(order: seq<nat>, idle: nat -> bool)
    requires NoRepeats(order)
    ensures forall m :: m in IdleIn(order, idle) <==> m in order && idle(m)
    ensures NoRepeats(IdleIn(order, idle))
  {
    if order != [] {
      var front, last := order[..|order| - 1], order[|order| - 1];
      assert order == front + [last];
      assert NoRepeats(front) && last !in front;
      IdleAreListed(front, idle);
      OneMoreNoRepeats(IdleIn(front, idle), last);
    }
  }

  ghost predicate NoRepeats(ms: seq<nat>) { forall i, j :: 0 <= i < j < |ms| ==> ms[i] != ms[j] }

  lemma OneMoreNoRepeats(ms: seq<nat>, m: nat)
    requires NoRepeats(ms) && m !in ms
    ensures NoRepeats(ms + [m])
  {
  }

  method PickIdle(order: seq<nat>, idle: nat -> bool, count: nat) returns (picked: seq<nat>)
    ensures Picks(order, idle, count, picked)
  {
    picked := [];
    var i := 0;
    assert order[..0] == [];
    while i < |order| && |picked| < BatchSize(count)
      invariant i <= |order| && picked == IdleIn(order[..i], idle) && |picked| <= BatchSize(count)
    {
      assert order[..i + 1][..i] == order[..i];
      if idle(order[i]) {
        picked := picked + [order[i]];
      }
      i := i + 1;
    }
  }

  /** What is picked is pending and listed once. */
  lemma PickedAreListed(order: seq<nat>, idle: nat -> bool, count: nat, picked: seq<nat>)
    requires NoRepeats(order) && Picks(order, idle, count, picked)
    ensures forall m :: m in picked ==> m in order && idle(m)
    ensures NoRepeats(picked)
  {
    var n :| 0 <= n <= |order| && picked == IdleIn(order[..n], idle) && (n == |order| || |picked| == BatchSize(count));
    IdleAreListed(order[..n], idle);
  }

  // ---- ConsumerRuntime ----

  /**
    * What the runtime does with one hand-over: dispatch, dead-letter at the limit, acknowledge unless it is to be
    * retried.
    */
  function HandleSteps(cfg: Settings, h: Handover, ok: bool): seq<Step>
  {
    if Reported(cfg, h) > cfg.maxDelivery then [Bury(h), Acknowledge(h)]
    else if ok then [Dispatch(h, true), Acknowledge(h)]
    else if Reported(cfg, h) >= cfg.maxDelivery then [Dispatch(h, false), Bury(h), Acknowledge(h)]
    else [Dispatch(h, false)]
  }

  function AllHandled(cfg: Settings, hs: seq<Handover>, verdict: Handover -> bool): seq<Step>
  {
    if hs == [] then []
    else AllHandled(cfg, hs[..|hs| - 1], verdict) + HandleSteps(cfg, hs[|hs| - 1], verdict(hs[|hs| - 1]))
  }

  function StaleClaims(idle: seq<nat>): seq<Step>
  {
    if idle == [] then [] else StaleClaims(idle[..|idle| - 1]) + [Claim(idle[|idle| - 1])]
  }

  /** The whole protocol run of one tick. */
  function TickSteps(
      cfg: Settings, idle: seq<nat>, count: nat, hs: seq<Handover>, verdict: Handover -> bool): seq<Step>
  {
    StaleClaims(idle) + [Read(count)] + AllHandled(cfg, hs, verdict)
  }

  /** A tick takes each claimed message once, and leads from nothing in hand to nothing in hand. */
  ghost predicate TickOk(
      s: State, cfg: Settings, idle: seq<nat>, count: nat, hs: seq<Handover>, verdict: Handover -> bool)
  {
    var steps := TickSteps(cfg, idle, count, hs, verdict);
    && s.inbox == map[] && NoRepeats(idle) && (forall m :: m in idle ==> m in s.topic.pending)
    && ValidRun(s, cfg, steps) && Run(s, cfg, steps).inbox == map[]
  }

  lemma TwoSteps(s: State, cfg: Settings, a: Step, b: Step)
    requires Enabled(s, cfg, a) && Enabled(Next(s, cfg, a), cfg, b)
    ensures ValidRun(s, cfg, [a, b]) && Run(s, cfg, [a, b]) == Next(Next(s, cfg, a), cfg, b)
  {
    RunSnoc(s, cfg, [], a);
    RunSnoc(s, cfg, [a], b);
    assert [] + [a] == [a] && [a] + [b] == [a, b];
  }

  lemma ThreeSteps(s: State, cfg: Settings, a: Step, b: Step, c: Step)
    requires Enabled(s, cfg, a) && Enabled(Next(s, cfg, a), cfg, b) && Enabled(Next(Next(s, cfg, a), cfg, b), cfg, c)
    ensures ValidRun(s, cfg, [a, b, c]) && Run(s, cfg, [a, b, c]) == Next(Next(Next(s, cfg, a), cfg, b), cfg, c)
  {
    TwoSteps(s, cfg, a, b);
    RunSnoc(s, cfg, [a, b], c);
    assert [a, b] + [c] == [a, b, c];
  }

  lemma OneStep(s: State, cfg: Settings, a: Step)
    requires Enabled(s, cfg, a)
    ensures ValidRun(s, cfg, [a]) && Run(s, cfg, [a]) == Next(s, cfg, a)
  {
    RunSnoc(s, cfg, [], a);
    assert [] + [a] == [a];
  }

  ghost predicate AllWaiting(inbox: map<Handover, Stage>, hs: seq<Handover>)
  {
    && (forall k :: 0 <= k < |hs| ==> hs[k] in inbox && inbox[hs[k]].Waiting?)
    && (forall k, l :: 0 <= k < l < |hs| ==> hs[k] != hs[l])
  }

  // ---- what becomes of a batch ----

  /** The delivery count the bus reports: with a lag, a claimed message shows the count before the claim. */
  function CountSeen(cfg: Settings, h: Handover): nat { if cfg.countLag && h.count >= 2 then h.count - 1 else h.count }

  predicate Succeeds(cfg: Settings, h: Handover, ok: bool) { CountSeen(cfg, h) <= cfg.maxDelivery && ok }

  predicate Rejects(cfg: Settings, h: Handover, ok: bool)
  {
    CountSeen(cfg, h) > cfg.maxDelivery || (CountSeen(cfg, h) == cfg.maxDelivery && !ok)
  }

  /** The dead letters of a batch, in order. */
  function DeadLettersOf(cfg: Settings, hs: seq<Handover>, verdict: Handover -> bool): seq<Handover>
  {
    if hs == [] then []
    else
      var h := hs[|hs| - 1];
      DeadLettersOf(cfg, hs[..|hs| - 1], verdict) + if Rejects(cfg, h, verdict(h)) then [h] else []
  }

  /** From `s` to `t` the hand-overs `hs` were handled: processed, dead-lettered or left pending. */
  ghost predicate BatchDone(s: State, t: State, cfg: Settings, hs: seq<Handover>, verdict: Handover -> bool)
  {
    && t.topic.messages == s.topic.messages && t.topic.cursor == s.topic.cursor
    && (forall id :: id in t.processed <==>
          || id in s.processed
          || exists h :: h in hs && Succeeds(cfg, h, verdict(h)) && h.msg < |s.topic.messages|
                         && Id(s.topic.messages[h.msg]) == id)
    && (forall m :: m in t.dead <==> m in s.dead || exists h :: h in hs && Rejects(cfg, h, verdict(h)) && h.msg == m)
    && (forall m :: m in t.topic.pending <==>
          && m in s.topic.pending
          && forall h :: h in hs && h.msg == m ==> !Succeeds(cfg, h, verdict(h)) && !Rejects(cfg, h, verdict(h)))
    && (forall m :: m in t.topic.pending ==> t.topic.pending[m] == s.topic.pending[m])
    && (forall h :: h in t.calls <==> h in s.calls || (h in hs && CountSeen(cfg, h) <= cfg.maxDelivery))
  }

  lemma OneDone(s: State, t: State, cfg: Settings, h: Handover, verdict: Handover -> bool)
    requires h in s.inbox && s.inbox[h].Waiting? && h.msg < |s.topic.messages|
    requires ValidRun(s, cfg, HandleSteps(cfg, h, verdict(h))) && t == Run(s, cfg, HandleSteps(cfg, h, verdict(h)))
    ensures BatchDone(s, t, cfg, [h], verdict)
  {
    HandledRun(s, cfg, h, verdict(h));
    assert h in [h];
  }

  lemma BatchDoneMore(
      s: State, mid: State, t: State, cfg: Settings, front: seq<Handover>, h: Handover, verdict: Handover -> bool)
    requires BatchDone(s, mid, cfg, front, verdict) && BatchDone(mid, t, cfg, [h], verdict)
    requires h.msg < |s.topic.messages|
    ensures BatchDone(s, t, cfg, front + [h], verdict)
  {
    assert forall x :: x in front + [h] <==> x in front || x == h;
    assert forall x :: x in [h] <==> x == h;
  }

  lemma {:induction false} AllDone(s: State, cfg: Settings, hs: seq<Handover>, verdict: Handover -> bool)
    requires AllWaiting(s.inbox, hs) && forall k :: 0 <= k < |hs| ==> hs[k].msg < |s.topic.messages|
    ensures ValidRun(s, cfg, AllHandled(cfg, hs, verdict))
    ensures var t := Run(s, cfg, AllHandled(cfg, hs, verdict));
            && BatchDone(s, t, cfg, hs, verdict)
            && forall h :: h in s.inbox && h !in hs ==> h in t.inbox && t.inbox[h] == s.inbox[h]
  {
    if hs != [] {
      var front, h := hs[..|hs| - 1], hs[|hs| - 1];
      assert hs == front + [h] && h !in front;
      AllDone(s, cfg, front, verdict);
      var mid := Run(s, cfg, AllHandled(cfg, front, verdict));
      HandledRun(mid, cfg, h, verdict(h));
      RunConcat(s, cfg, AllHandled(cfg, front, verdict), HandleSteps(cfg, h, verdict(h)));
      var t := Run(mid, cfg, HandleSteps(cfg, h, verdict(h)));
      OneDone(mid, t, cfg, h, verdict);
      BatchDoneMore(s, mid, t, cfg, front, h, verdict);
    }
  }

  /** A batch that began in `s`, when `front` is handled and `rest` still waits. */
  ghost predicate MidBatch(
      s: State, v: State, cfg: Settings, front: seq<Handover>, rest: seq<Handover>, verdict: Handover -> bool)
  {
    && v.topic.messages == s.topic.messages && AllWaiting(v.inbox, rest)
    && (forall h :: h in v.inbox ==> h in s.inbox && h !in front)
    && ValidRun(s, cfg, AllHandled(cfg, front, verdict)) && v == Run(s, cfg, AllHandled(cfg, front, verdict))
  }

  lemma NextWaits(
      s: State, v: State, cfg: Settings, front: seq<Handover>, h: Handover, rest: seq<Handover>,
      verdict: Handover -> bool)
    requires MidBatch(s, v, cfg, front, [h] + rest, verdict)
    ensures h in v.inbox && v.inbox[h].Waiting? && AllWaiting(v.inbox - {h}, rest)
  {
    assert ([h] + rest)[0] == h;
    forall k | 0 <= k < |rest| ensures rest[k] in v.inbox && v.inbox[rest[k]].Waiting? && rest[k] != h {
      assert ([h] + rest)[k + 1] == rest[k];
    }
    forall k, l | 0 <= k < l < |rest| ensures rest[k] != rest[l] {
      assert ([h] + rest)[k + 1] == rest[k] && ([h] + rest)[l + 1] == rest[l];
    }
  }

  lemma MidBatchMore(
      s: State, v: State, t: State, cfg: Settings, front: seq<Handover>, h: Handover, rest: seq<Handover>,
      verdict: Handover -> bool)
    requires MidBatch(s, v, cfg, front, [h] + rest, verdict) && AllWaiting(v.inbox - {h}, rest)
    requires ValidRun(v, cfg, HandleSteps(cfg, h, verdict(h))) && t == Run(v, cfg, HandleSteps(cfg, h, verdict(h)))
    requires t.inbox == v.inbox - {h} && t.topic.messages == v.topic.messages
    ensures MidBatch(s, t, cfg, front + [h], rest, verdict)
  {
    assert (front + [h])[..|front|] == front;
    assert forall x :: x in front + [h] <==> x in front || x == h;
    RunConcat(s, cfg, AllHandled(cfg, front, verdict), HandleSteps(cfg, h, verdict(h)));
  }

  lemma SplitAt(hs: seq<Handover>, i: nat)
    requires i < |hs|
    ensures hs[..i + 1] == hs[..i] + [hs[i]] && hs[i..] == [hs[i]] + hs[i + 1..]
  {
  }

  lemma DeadLettersSnoc(cfg: Settings, hs: seq<Handover>, i: nat, verdict: Handover -> bool)
    requires i < |hs|
    ensures DeadLettersOf(cfg, hs[..i + 1], verdict) ==
            DeadLettersOf(cfg, hs[..i], verdict) + if Rejects(cfg, hs[i], verdict(hs[i])) then [hs[i]] else []
  {
    assert hs[..i + 1][..i] == hs[..i];
  }

  class ConsumerRuntime {
    const bus: InMemoryBus
    /** `processed_events` of the consuming service. */
    var processed: set<EventId>
    /** History: hand-overs in progress, messages dead-lettered, dispatches made. */
    ghost var inbox: map<Handover, Stage>
    ghost var dead: set<nat>
    ghost var calls: set<Handover>

    constructor (b: InMemoryBus)
      ensures bus == b && processed == {} && inbox == map[] && dead == {} && calls == {}
    {
      bus, processed, inbox, dead, calls := b, {}, map[], {}, {};
    }

    ghost function Value(rest: State): State
      reads this, bus
    {
      rest.(topic := bus.Value(), inbox := inbox, processed := processed, dead := dead, calls := calls)
    }

    method Reject(h: Handover)
      modifies this`inbox, this`dead, bus`deadLetters, bus`pending
      ensures bus.Value() == Ack(old(bus.Value()), h.msg) && inbox == old(inbox) - {h} && dead == old(dead) + {h.msg}
      ensures bus.deadLetters == old(bus.deadLetters) + [h]
    {
      bus.DeadLetter(h);
      dead := dead + {h.msg};
      bus.Ack(h.msg);
      inbox := inbox - {h};
    }

    method Handle(cfg: Settings, h: Handover, ok: bool, ghost rest: State)
      requires h in inbox && inbox[h].Waiting? && h.msg < |bus.messages|
      modifies this, bus`deadLetters, bus`pending
      ensures ValidRun(old(Value(rest)), cfg, HandleSteps(cfg, h, ok))
      ensures Value(rest) == Run(old(Value(rest)), cfg, HandleSteps(cfg, h, ok))
      ensures inbox == old(inbox) - {h}
      ensures bus.deadLetters == old(bus.deadLetters) + if Rejects(cfg, h, ok) then [h] else []
    {
      ghost var s := Value(rest);
      HandledRun(s, cfg, h, ok);
      if Reported(cfg, h) > cfg.maxDelivery {
        Reject(h);
        return;
      }
      calls := calls + {h};
      if ok {
        processed := processed + {Id(bus.messages[h.msg])};
        bus.Ack(h.msg);
        inbox := inbox - {h};
      } else if Reported(cfg, h) >= cfg.maxDelivery {
        Reject(h);
      } else {
        inbox := inbox - {h};
      }
    }

    method HandleAll(cfg: Settings, hs: seq<Handover>, verdict: Handover -> bool, ghost rest: State)
      requires AllWaiting(inbox, hs) && forall h :: h in hs ==> h.msg < |bus.messages|
      modifies this, bus`deadLetters, bus`pending
      ensures MidBatch(old(Value(rest)), Value(rest), cfg, hs, [], verdict)
      ensures bus.deadLetters == old(bus.deadLetters) + DeadLettersOf(cfg, hs, verdict)
    {
      ghost var s, letters := Value(rest), bus.deadLetters;
      assert hs[..0] == [] && hs[0..] == hs;
      for i := 0 to |hs|
        invariant MidBatch(s, Value(rest), cfg, hs[..i], hs[i..], verdict)
        invariant bus.deadLetters == letters + DeadLettersOf(cfg, hs[..i], verdict)
      {
        DeadLettersSnoc(cfg, hs, i, verdict);
        HandleNext(cfg, hs, i, verdict, s, rest);
      }
      assert hs[..|hs|] == hs && hs[|hs|..] == [];
    }

    method HandleNext(
        cfg: Settings, hs: seq<Handover>, i: nat, verdict: Handover -> bool, ghost s: State, ghost rest: State)
      requires i < |hs| && hs[i].msg < |s.topic.messages|
      requires MidBatch(s, Value(rest), cfg, hs[..i], hs[i..], verdict)
      modifies this, bus`deadLetters, bus`pending
      ensures MidBatch(s, Value(rest), cfg, hs[..i + 1], hs[i + 1..], verdict)
      ensures bus.deadLetters ==
              old(bus.deadLetters) + if Rejects(cfg, hs[i], verdict(hs[i])) then [hs[i]] else []
    {
      ghost var v := Value(rest);
      SplitAt(hs, i);
      NextWaits(s, v, cfg, hs[..i], hs[i], hs[i + 1..], verdict);
      Handle(cfg, hs[i], verdict(hs[i]), rest);
      MidBatchMore(s, v, Value(rest), cfg, hs[..i], hs[i], hs[i + 1..], verdict);
    }

    method ClaimInto(m: nat, ghost rest: State, ghost cfg: Settings) returns (h: Handover)
      requires m in bus.pending
      modifies this`inbox, bus`pending
      ensures Value(rest) == Next(old(Value(rest)), cfg, Claim(m))
      ensures h == Handover(m, old(bus.pending)[m] + 1) && inbox == old(inbox)[h := Waiting]
      ensures bus.pending == old(bus.pending)[m := h.count]
    {
      h := bus.ClaimOne(m);
      inbox := inbox[h := Waiting];
    }

    method ReadBatch(count: nat, ghost rest: State, ghost cfg: Settings) returns (out: seq<Handover>)
      requires bus.cursor <= |bus.messages|
      modifies this`inbox, bus`pending, bus`cursor
      ensures Value(rest) == Next(old(Value(rest)), cfg, Read(count))
      ensures bus.Value() == Delivery.ReadNew(old(bus.Value()), count) && bus.cursor <= |bus.messages|
      ensures |out| == bus.cursor - old(bus.cursor)
      ensures forall k :: 0 <= k < |out| ==> out[k] == Handover(old(bus.cursor) + k, 1)
      ensures inbox == old(inbox) + map h | h in out :: Waiting
    {
      ghost var t := bus.Value();
      out := bus.ReadNew(count);
      inbox := inbox + map h | h in out :: Waiting;
      BatchIsFresh(t, count, out);
    }

    /** Claim the idle messages, each at its next delivery count. */
    method ClaimStale(idle: seq<nat>, ghost rest: State, ghost cfg: Settings) returns (out: seq<Handover>)
      requires inbox == map[] && NoRepeats(idle) && forall m :: m in idle ==> m in bus.pending
      modifies this`inbox, bus`pending
      ensures ValidRun(old(Value(rest)), cfg, StaleClaims(idle))
      ensures Value(rest) == Run(old(Value(rest)), cfg, StaleClaims(idle))
      ensures Gathered(inbox, out, idle)
    {
      ghost var s := Value(rest);
      out := [];
      for i := 0 to |idle|
        invariant forall m :: m in idle ==> m in bus.pending
        invariant Gathered(inbox, out, idle[..i])
        invariant ValidRun(s, cfg, StaleClaims(idle[..i])) && Value(rest) == Run(s, cfg, StaleClaims(idle[..i]))
      {
        assert idle[..i + 1][..i] == idle[..i];
        assert idle[i] in idle;
        RunSnoc(s, cfg, StaleClaims(idle[..i]), Claim(idle[i]));
        ghost var before := inbox;
        var h := ClaimInto(idle[i], rest, cfg);
        GatheredMore(before, out, idle, i, h);
        out := out + [h];
      }
      assert idle[..|idle|] == idle;
    }

    /**
      * One tick: claim the idle messages of the pending table up to the batch size, read new ones, handle
      * them all. Nothing stays in hand and nothing is lost: what was taken is processed, dead-lettered or, below
      * the limit, pending still.
      */
    method RunOnce(
        cfg: Settings, order: seq<nat>, idle: nat -> bool, count: nat, verdict: Handover -> bool, ghost rest: State)
      returns (handled: nat, ghost picked: seq<nat>, ghost hs: seq<Handover>, ghost taken: Topic)
      requires inbox == map[] && Inv(Value(rest), cfg)
      requires NoRepeats(order) && forall m :: m in order <==> m in bus.pending
      modifies this, bus
      ensures Picks(order, idle, count, picked) && TickOk(old(Value(rest)), cfg, picked, count, hs, verdict)
      ensures Value(rest) == Run(old(Value(rest)), cfg, TickSteps(cfg, picked, count, hs, verdict))
      ensures Inv(Value(rest), cfg) && inbox == map[] && handled == |hs|
      ensures TakenFrom(old(bus.Value()), taken, picked, count, hs)
      ensures BatchDone(old(Value(rest)).(topic := taken), Value(rest), cfg, hs, verdict)
      ensures bus.deadLetters == old(bus.deadLetters) + DeadLettersOf(cfg, hs, verdict)
    {
      var stale := PickIdle(order, idle, count);
      picked := stale;
      PickedAreListed(order, idle, count, stale);
      handled, hs, taken := RunBatch(cfg, stale, count, verdict, rest);
    }

    method RunBatch(cfg: Settings, idle: seq<nat>, count: nat, verdict: Handover -> bool, ghost rest: State)
      returns (handled: nat, ghost hs: seq<Handover>, ghost taken: Topic)
      requires inbox == map[] && Inv(Value(rest), cfg)
      requires NoRepeats(idle) && forall m :: m in idle ==> m in bus.pending
      modifies this, bus
      ensures ValidRun(old(Value(rest)), cfg, TickSteps(cfg, idle, count, hs, verdict))
      ensures Value(rest) == Run(old(Value(rest)), cfg, TickSteps(cfg, idle, count, hs, verdict))
      ensures Inv(Value(rest), cfg) && inbox == map[] && handled == |hs|
      ensures TakenFrom(old(bus.Value()), taken, idle, count, hs)
      ensures BatchDone(old(Value(rest)).(topic := taken), Value(rest), cfg, hs, verdict)
      ensures bus.deadLetters == old(bus.deadLetters) + DeadLettersOf(cfg, hs, verdict)
    {
      ghost var s := Value(rest);
      var batch := Gather(idle, count, rest, cfg);
      hs, taken := batch, bus.Value();
      ghost var mid := Value(rest);
      HandleAll(cfg, batch, verdict, rest);
      AllDone(mid, cfg, batch, verdict);
      RunConcat(s, cfg, StaleClaims(idle) + [Read(count)], AllHandled(cfg, hs, verdict));
      RunKeeps(s, cfg, TickSteps(cfg, idle, count, hs, verdict));
      handled := |batch|;
    }

    method Gather(idle: seq<nat>, count: nat, ghost rest: State, ghost cfg: Settings) returns (batch: seq<Handover>)
      requires inbox == map[] && bus.cursor <= |bus.messages| && forall m :: m in bus.pending ==> m < bus.cursor
      requires NoRepeats(idle) && forall m :: m in idle ==> m in bus.pending
      modifies this`inbox, bus`pending, bus`cursor
      ensures ValidRun(old(Value(rest)), cfg, StaleClaims(idle) + [Read(count)])
      ensures Value(rest) == Run(old(Value(rest)), cfg, StaleClaims(idle) + [Read(count)])
      ensures AllWaiting(inbox, batch) && (forall h :: h in inbox ==> h in batch)
      ensures forall h :: h in batch ==> h.msg < |bus.messages|
      ensures TakenFrom(old(bus.Value()), bus.Value(), idle, count, batch)
    {
      ghost var s := Value(rest);
      var stale := ClaimStale(idle, rest, cfg);
      RunSnoc(s, cfg, StaleClaims(idle), Read(count));
      ghost var v := Value(rest);
      ClaimsCount(s, cfg, idle);
      ClaimedAre(s, v, stale, idle);
      var found := ReadBatch(count, rest, cfg);
      Joined(v.inbox, stale, found, v.topic.cursor);
      batch := stale + found;
      TakenIs(s, v, bus.Value(), idle, count, stale, found);
    }
  }

  lemma ClaimedAre(s: State, v: State, stale: seq<Handover>, idle: seq<nat>)
    requires Counted(s, v, idle) && Gathered(v.inbox, stale, idle)
    requires (forall m :: m in idle ==> m in s.topic.pending) && forall m :: m in s.topic.pending ==> m < s.topic.cursor
    ensures v.topic.cursor == s.topic.cursor && forall k :: 0 <= k < |stale| ==> stale[k].msg < s.topic.cursor
    ensures forall k :: 0 <= k < |idle| ==>
              idle[k] in s.topic.pending && stale[k] == Handover(idle[k], s.topic.pending[idle[k]] + 1)
  {
    forall k | 0 <= k < |idle|
      ensures idle[k] in s.topic.pending && stale[k] == Handover(idle[k], s.topic.pending[idle[k]] + 1)
    {
      assert idle[k] in idle && stale[k] in v.inbox;
    }
  }

  lemma Joined(inbox: map<Handover, Stage>, stale: seq<Handover>, found: seq<Handover>, cursor: nat)
    requires AllWaiting(inbox, stale) && (forall k :: 0 <= k < |stale| ==> stale[k].msg < cursor)
    requires forall k :: 0 <= k < |found| ==> found[k] == Handover(cursor + k, 1)
    ensures AllWaiting(inbox + map h | h in found :: Waiting, stale + found)
  {
  }

  lemma BatchIsFresh(t: Topic, count: nat, out: seq<Handover>)
    requires t.cursor <= |t.messages| && |out| == ReadEnd(t, count) - t.cursor
    requires forall k :: 0 <= k < |out| ==> out[k] == Handover(t.cursor + k, 1)
    ensures (map h | h in out :: Waiting) == map h | h in Fresh(t, count) :: Waiting
  {
    forall h | h in Fresh(t, count) ensures h in out {
      assert out[h.msg - t.cursor] == h;
    }
    forall h | h in out ensures h in Fresh(t, count) {
      assert InBatch(t, count, h.msg) && h.msg in Unread(t, count);
    }
  }

  /** The hand-overs `out` are the claims of the messages `idle`, in order, and nothing else is in hand. */
  ghost predicate Gathered(inbox: map<Handover, Stage>, out: seq<Handover>, idle: seq<nat>)
  {
    && AllWaiting(inbox, out) && |out| == |idle|
    && (forall k :: 0 <= k < |out| ==> out[k].msg == idle[k])
    && (forall h :: h in inbox ==> h in out)
  }

  lemma GatheredMore(inbox: map<Handover, Stage>, out: seq<Handover>, idle: seq<nat>, i: nat, h: Handover)
    requires i < |idle| && (forall j, k :: 0 <= j < k < |idle| ==> idle[j] != idle[k])
    requires Gathered(inbox, out, idle[..i]) && h.msg == idle[i]
    ensures Gathered(inbox[h := Waiting], out + [h], idle[..i + 1])
  {
    assert forall k :: 0 <= k < |out| ==> out[k].msg == idle[k];
  }

  /** The claimed messages and only they count one delivery more, and are handed out with it. */
  ghost predicate Counted(s: State, t: State, idle: seq<nat>)
  {
    && t.topic == s.topic.(pending := t.topic.pending) && t.topic.pending.Keys == s.topic.pending.Keys
    && (forall m :: m in s.topic.pending ==> t.topic.pending[m] == s.topic.pending[m] + if m in idle then 1 else 0)
    && (forall h :: h in t.inbox ==>
          h.msg in idle && h.msg in s.topic.pending && h.count == s.topic.pending[h.msg] + 1)
  }

  lemma {:induction false} ClaimsCount(s: State, cfg: Settings, idle: seq<nat>)
    requires s.inbox == map[] && NoRepeats(idle) && forall m :: m in idle ==> m in s.topic.pending
    ensures ValidRun(s, cfg, StaleClaims(idle)) && Counted(s, Run(s, cfg, StaleClaims(idle)), idle)
  {
    if idle != [] {
      var front, last := idle[..|idle| - 1], idle[|idle| - 1];
      assert idle == front + [last] && last !in front;
      ClaimsCount(s, cfg, front);
      var mid := Run(s, cfg, StaleClaims(front));
      RunSnoc(s, cfg, StaleClaims(front), Claim(last));
      CountedMore(s, mid, cfg, front, last);
    }
  }

  lemma CountedMore(s: State, t: State, cfg: Settings, front: seq<nat>, m: nat)
    requires Counted(s, t, front) && m !in front && m in s.topic.pending
    ensures Counted(s, Next(t, cfg, Claim(m)), front + [m])
  {
    assert forall x :: x in front + [m] <==> x in front || x == m;
  }

  /** What a tick took: each claimed message at its next count, then the next messages of the stream at count 1. */
  ghost predicate TakenFrom(before: Topic, after: Topic, idle: seq<nat>, count: nat, batch: seq<Handover>)
  {
    && after.messages == before.messages
    && after.cursor == (if before.cursor + count <= |before.messages| then before.cursor + count else |before.messages|)
    && before.cursor <= after.cursor && |batch| == |idle| + (after.cursor - before.cursor)
    && (forall k :: 0 <= k < |idle| ==>
          idle[k] in before.pending && batch[k] == Handover(idle[k], before.pending[idle[k]] + 1))
    && (forall k :: |idle| <= k < |batch| ==> batch[k] == Handover(before.cursor + (k - |idle|), 1))
    && (forall m :: m in after.pending <==> m in before.pending || before.cursor <= m < after.cursor)
    && (forall m :: m in after.pending ==>
          after.pending[m] == if before.cursor <= m < after.cursor then 1
                              else before.pending[m] + if m in idle then 1 else 0)
  }

  lemma TakenIs(
      s: State, v: State, after: Topic, idle: seq<nat>, count: nat, stale: seq<Handover>, found: seq<Handover>)
    requires s.topic.cursor <= |s.topic.messages| && forall m :: m in s.topic.pending ==> m < s.topic.cursor
    requires Counted(s, v, idle) && |stale| == |idle|
    requires forall k :: 0 <= k < |idle| ==>
               idle[k] in s.topic.pending && stale[k] == Handover(idle[k], s.topic.pending[idle[k]] + 1)
    requires after == ReadNew(v.topic, count) && |found| == after.cursor - v.topic.cursor
    requires forall k :: 0 <= k < |found| ==> found[k] == Handover(v.topic.cursor + k, 1)
    ensures TakenFrom(s.topic, after, idle, count, stale + found)
  {
    forall m: nat ensures m in Unread(v.topic, count) <==> v.topic.cursor <= m < after.cursor {
      assert InBatch(v.topic, count, m) <==> v.topic.cursor <= m < after.cursor;
    }
  }

  lemma HandledRun(s: State, cfg: Settings, h: Handover, ok: bool)
    requires h in s.inbox && s.inbox[h].Waiting? && h.msg < |s.topic.messages|
    ensures ValidRun(s, cfg, HandleSteps(cfg, h, ok))
    ensures Run(s, cfg, HandleSteps(cfg, h, ok)) ==
            if Reported(cfg, h) > cfg.maxDelivery then
              s.(topic := Ack(s.topic, h.msg), inbox := s.inbox - {h}, dead := s.dead + {h.msg})
            else if ok then
              s.(topic := Ack(s.topic, h.msg), inbox := s.inbox - {h}, calls := s.calls + {h},
                 processed := s.processed + {Id(s.topic.messages[h.msg])})
            else if Reported(cfg, h) >= cfg.maxDelivery then
              s.(topic := Ack(s.topic, h.msg), inbox := s.inbox - {h}, calls := s.calls + {h}, dead := s.dead + {h.msg})
            else s.(inbox := s.inbox - {h}, calls := s.calls + {h})
  {
    if Reported(cfg, h) > cfg.maxDelivery {
      TwoSteps(s, cfg, Bury(h), Acknowledge(h));
      assert s.inbox[h := Rejected] - {h} == s.inbox - {h};
    } else if ok {
      TwoSteps(s, cfg, Dispatch(h, true), Acknowledge(h));
      assert s.inbox[h := Handled] - {h} == s.inbox - {h};
    } else if Reported(cfg, h) >= cfg.maxDelivery {
      ThreeSteps(s, cfg, Dispatch(h, false), Bury(h), Acknowledge(h));
      assert s.inbox[h := Raised][h := Rejected] - {h} == s.inbox - {h};
    } else {
      OneStep(s, cfg, Dispatch(h, false));
    }
  }
}
