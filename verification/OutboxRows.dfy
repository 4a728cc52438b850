/** The outbox of the delivery protocol: one row per event, kept for good, and how often it reaches the stream. */
module OutboxRows {
  import opened Events
  import opened Delivery

  ghost predicate OneRowPerId(outbox: seq<OutboxRow>)
  {
    forall i, j :: 0 <= i < j < |outbox| ==> Id(outbox[i].event) != Id(outbox[j].event)
  }

  ghost predicate HasRow(outbox: seq<OutboxRow>, id: EventId) { exists r :: r in outbox && Id(r.event) == id }

  /** Rows keep their place and their event, attempts only grow, and what is published stays so. */
  ghost predicate RowsStay(before: seq<OutboxRow>, after: seq<OutboxRow>)
  {
    && |before| <= |after|
    && forall i :: 0 <= i < |before| ==>
         && after[i].event == before[i].event && before[i].attempts <= after[i].attempts
         && (before[i].published ==> after[i].published)
  }

  lemma StepKeepsRows(s: State, cfg: Settings, step: Step)
    requires OneRowPerId(s.outbox) && Enabled(s, cfg, step)
    ensures OneRowPerId(Next(s, cfg, step).outbox) && RowsStay(s.outbox, Next(s, cfg, step).outbox)
    ensures step.Commit? ==> HasRow(Next(s, cfg, step).outbox, Id(step.event))
  {
    if step.Commit? && !HasRow(s.outbox, Id(step.event)) {
      assert Next(s, cfg, step).outbox[|s.outbox|] == OutboxRow(step.event, false, 0);
    }
  }

  lemma RowStays(before: seq<OutboxRow>, after: seq<OutboxRow>, id: EventId)
    requires RowsStay(before, after) && HasRow(before, id)
    ensures HasRow(after, id)
  {
    var i :| 0 <= i < |before| && Id(before[i].event) == id;
    assert after[i] in after;
  }

  lemma {:induction false} RunKeepsRows(s: State, cfg: Settings, steps: seq<Step>)
    requires OneRowPerId(s.outbox) && ValidRun(s, cfg, steps)
    ensures OneRowPerId(Run(s, cfg, steps).outbox) && RowsStay(s.outbox, Run(s, cfg, steps).outbox)
    decreases |steps|
  {
    if steps != [] {
      StepKeepsRows(s, cfg, steps[0]);
      RunKeepsRows(Next(s, cfg, steps[0]), cfg, steps[1..]);
    }
  }

  lemma {:induction false} CommitsHaveRows(s: State, cfg: Settings, steps: seq<Step>, e: Event)
    requires OneRowPerId(s.outbox) && ValidRun(s, cfg, steps) && Commit(e) in steps
    ensures HasRow(Run(s, cfg, steps).outbox, Id(e))
    decreases |steps|
  {
    var s1 := Next(s, cfg, steps[0]);
    StepKeepsRows(s, cfg, steps[0]);
    if steps[0] == Commit(e) {
      RunKeepsRows(s1, cfg, steps[1..]);
      RowStays(s1.outbox, Run(s1, cfg, steps[1..]).outbox, Id(e));
    } else {
      CommitsHaveRows(s1, cfg, steps[1..], e);
    }
  }

  /**
    * In every run: no two rows carry one event id, every committed event has its row, and committing an event
    * whose id has a row, published or not, changes nothing.
    */
  lemma OneRowPerEvent(cfg: Settings, steps: seq<Step>, e: Event)
    requires ValidRun(EMPTY, cfg, steps)
    ensures var s := Run(EMPTY, cfg, steps);
            && OneRowPerId(s.outbox)
            && (Commit(e) in steps ==> HasRow(s.outbox, Id(e)))
            && (HasRow(s.outbox, Id(e)) ==> Next(s, cfg, Commit(e)) == s)
            && (!HasRow(s.outbox, Id(e)) ==>
                  Next(s, cfg, Commit(e)) == s.(outbox := s.outbox + [OutboxRow(e, false, 0)]))
  {
    RunKeepsRows(EMPTY, cfg, steps);
    if Commit(e) in steps {
      CommitsHaveRows(EMPTY, cfg, steps, e);
    }
  }

  // ---- how often an event reaches the stream ----

  function Copies(messages: seq<Event>, id: EventId): nat
  {
    if messages == [] then 0
    else Copies(messages[..|messages| - 1], id) + if Id(messages[|messages| - 1]) == id then 1 else 0
  }

  /** Relay crashes that forget having published the row. */
  function Lapses(s: State, cfg: Settings, steps: seq<Step>, i: nat): nat
    requires ValidRun(s, cfg, steps)
    decreases |steps|
  {
    if steps == [] then 0
    else
      (if steps[0].RelayCrash? && i in s.marks then 1 else 0) + Lapses(Next(s, cfg, steps[0]), cfg, steps[1..], i)
  }

  /** The copies of row `i`: one per time it was forgotten, and one if it is published or marked. */
  ghost predicate CopiesOk(s: State, i: nat, lapses: nat)
  {
    i < |s.outbox| ==>
      Copies(s.topic.messages, Id(s.outbox[i].event)) ==
      lapses + if s.outbox[i].published || i in s.marks then 1 else 0
  }

  /** Nothing is in the stream that never was in the outbox. */
  ghost predicate StreamFromOutbox(s: State)
  {
    && (forall e :: e in s.topic.messages ==> HasRow(s.outbox, Id(e)))
    && (forall i :: i in s.marks ==> i < |s.outbox| && !s.outbox[i].published)
  }

  lemma {:induction false} NoCopies(messages: seq<Event>, id: EventId)
    requires forall e :: e in messages ==> Id(e) != id
    ensures Copies(messages, id) == 0
  {
    if messages != [] {
      NoCopies(messages[..|messages| - 1], id);
    }
  }

  lemma OneMoreCopy(messages: seq<Event>, e: Event, id: EventId)
    ensures Copies(messages + [e], id) == Copies(messages, id) + if Id(e) == id then 1 else 0
  {
    assert (messages + [e])[..|messages|] == messages;
  }

  lemma StepKeepsStream(s: State, cfg: Settings, step: Step)
    requires OneRowPerId(s.outbox) && StreamFromOutbox(s) && Enabled(s, cfg, step)
    ensures StreamFromOutbox(Next(s, cfg, step))
  {
    var t := Next(s, cfg, step);
    StepKeepsRows(s, cfg, step);
    forall e | e in t.topic.messages ensures HasRow(t.outbox, Id(e)) {
      if e in s.topic.messages {
        RowStays(s.outbox, t.outbox, Id(e));
      } else {
        assert step.RelayPublish? && e == s.outbox[step.row].event;
        assert t.outbox[step.row] in t.outbox;
      }
    }
  }

  lemma StepCountsCopies(s: State, cfg: Settings, step: Step, i: nat, lapses: nat)
    requires OneRowPerId(s.outbox) && StreamFromOutbox(s) && CopiesOk(s, i, lapses) && Enabled(s, cfg, step)
    ensures i < |s.outbox| ==>
              CopiesOk(Next(s, cfg, step), i, lapses + if step.RelayCrash? && i in s.marks then 1 else 0)
    ensures i >= |s.outbox| ==> CopiesOk(Next(s, cfg, step), i, 0)
  {
    var t := Next(s, cfg, step);
    if step.RelayPublish? && i < |s.outbox| {
      OneMoreCopy(s.topic.messages, s.outbox[step.row].event, Id(s.outbox[i].event));
    } else if step.Commit? && i == |s.outbox| && i < |t.outbox| {
      NoCopies(s.topic.messages, Id(step.event));
    }
  }

  lemma {:induction false} RunCountsCopies(s: State, cfg: Settings, steps: seq<Step>, i: nat, lapses: nat)
    requires OneRowPerId(s.outbox) && StreamFromOutbox(s) && CopiesOk(s, i, lapses) && ValidRun(s, cfg, steps)
    requires i >= |s.outbox| ==> lapses == 0
    ensures CopiesOk(Run(s, cfg, steps), i, lapses + Lapses(s, cfg, steps, i))
    decreases |steps|
  {
    if steps != [] {
      var forgotten := if steps[0].RelayCrash? && i in s.marks then 1 else 0;
      StepKeepsRows(s, cfg, steps[0]);
      StepKeepsStream(s, cfg, steps[0]);
      StepCountsCopies(s, cfg, steps[0], i, lapses);
      RunCountsCopies(Next(s, cfg, steps[0]), cfg, steps[1..], i, lapses + forgotten);
    }
  }

  /**
    * In every run a row's event is in the stream once if it is published, and once more for each time the
    * relay crashed between publishing it and marking it.
    */
  lemma PublishedOncePerLapse(cfg: Settings, steps: seq<Step>, i: nat)
    requires ValidRun(EMPTY, cfg, steps) && i < |Run(EMPTY, cfg, steps).outbox|
    ensures var s := Run(EMPTY, cfg, steps);
            Copies(s.topic.messages, Id(s.outbox[i].event)) ==
            Lapses(EMPTY, cfg, steps, i) + if s.outbox[i].published || i in s.marks then 1 else 0
  {
    RunCountsCopies(EMPTY, cfg, steps, i, 0);
  }
}
