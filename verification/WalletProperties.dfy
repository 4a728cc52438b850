/** Theorems about whole runs of the wallet service. */
module WalletProperties {
  import opened Events
  import opened Sums
  import opened Ledger
  import opened Wallet
  import opened WalletInvariant

  // ---- out-of-order confluence ----

  ghost predicate FailSeen(processed: set<EventId>, id: TransferId)
  {
    exists code :: TxFailedId(id, code) in processed
  }

  ghost predicate ConfirmSeen(processed: set<EventId>, id: TransferId)
  {
    TxConfirmedId(id) in processed
  }

  /** The status of a transfer is a function of the set of events that were applied. */
  ghost predicate StatusFollows(processed: set<EventId>, t: Transfer)
  {
    && (t.status.Failed? <==> FailSeen(processed, t.id))
    && (t.status.Confirmed? <==> ConfirmSeen(processed, t.id) && !FailSeen(processed, t.id))
  }

  ghost predicate LinkOk(w: State)
  {
    forall t :: t in w.transfers ==> StatusFollows(w.processed, t)
  }

  lemma UnrelatedKeepsLink(w: State, id: EventId)
    requires LinkOk(w) && (forall t :: t in w.transfers ==> !Mentions(id, t.id))
    ensures LinkOk(w.(processed := w.processed + {id}))
  {
    forall t | t in w.transfers ensures StatusFollows(w.processed + {id}, t) {
      assert StatusFollows(w.processed, t);
      forall code ensures TxFailedId(t.id, code) in w.processed + {id} <==> TxFailedId(t.id, code) in w.processed {
        assert Mentions(TxFailedId(t.id, code), t.id);
      }
      assert Mentions(TxConfirmedId(t.id), t.id);
    }
  }

  /** Recording a settlement or failure together with the status it leads to. */
  lemma RecordedKeepsLink(w: State, i: nat, id: EventId, s: Status)
    requires WalletOk(w) && LinkOk(w) && i < |w.transfers|
    requires id == TxConfirmedId(w.transfers[i].id) || (id.TxFailedId? && id.transfer == w.transfers[i].id)
    requires id.TxFailedId? ==> s == Failed
    requires id.TxConfirmedId? ==> s == if w.transfers[i].status.Failed? then Failed else Confirmed
    ensures forall t :: t in WithStatus(w.transfers, i, s) ==> StatusFollows(w.processed + {id}, t)
  {
    var ts := WithStatus(w.transfers, i, s);
    forall t | t in ts ensures StatusFollows(w.processed + {id}, t) {
      var j :| 0 <= j < |ts| && ts[j] == t;
      assert StatusFollows(w.processed, w.transfers[j]);
      if id.TxFailedId? && j == i {
        assert TxFailedId(t.id, id.code) in w.processed + {id};
      }
      forall code ensures TxFailedId(t.id, code) in w.processed + {id} <==>
                          TxFailedId(t.id, code) in w.processed || TxFailedId(t.id, code) == id {
      }
    }
  }

  lemma SameStatusIsSame(ts: seq<Transfer>, i: nat)
    requires i < |ts|
    ensures WithStatus(ts, i, ts[i].status) == ts
  {
  }

  lemma DeliveryKeepsLink(w: State, e: Event)
    requires WalletOk(w) && LinkOk(w) && Id(e) !in w.processed
    ensures LinkOk(Dispatch(w, e))
  {
    var marked := w.(processed := w.processed + {Id(e)});
    assert WalletOk(marked);
    match e
    case TxConfirmed(id) =>
      SettleExplicit(marked, id);
      var f := Find(w.transfers, id);
      if f.None? {
        UnrelatedKeepsLink(w, Id(e));
      } else {
        var s := if w.transfers[f.value].status.Failed? then Failed else Confirmed;
        RecordedKeepsLink(w, f.value, Id(e), s);
        SameStatusIsSame(w.transfers, f.value);
      }
    case TxFailed(id, code, _) =>
      FailExplicit(marked, id);
      var f := Find(w.transfers, id);
      if f.None? {
        UnrelatedKeepsLink(w, Id(e));
      } else {
        RecordedKeepsLink(w, f.value, Id(e), Failed);
        SameStatusIsSame(w.transfers, f.value);
      }
    case TxBroadcasted(id) =>
      UnrelatedKeepsLink(w, Id(e));
      var f := Find(w.transfers, id);
      if f.Some? && Open(w.transfers[f.value].status) {
        OpenStaysLinked(marked, f.value);
      }
    case _ =>
      UnrelatedKeepsLink(w, Id(e));
  }

  lemma OpenStaysLinked(w: State, i: nat)
    requires LinkOk(w) && i < |w.transfers| && Open(w.transfers[i].status)
    ensures LinkOk(w.(transfers := WithStatus(w.transfers, i, Broadcast)))
  {
    var ts := WithStatus(w.transfers, i, Broadcast);
    forall t | t in ts ensures StatusFollows(w.processed, t) {
      var j :| 0 <= j < |ts| && ts[j] == t;
      assert StatusFollows(w.processed, w.transfers[j]);
    }
  }

  lemma CreateKeepsLink(w: State, key: string, req: Request, id: TransferId)
    requires LinkOk(w) && FreshId(w, id)
    ensures LinkOk(PostTransfer(w, key, req, id).0)
  {
    var w1 := PostTransfer(w, key, req, id).0;
    forall t | t in w1.transfers ensures StatusFollows(w1.processed, t) {
      if t in w.transfers {
        assert StatusFollows(w.processed, t);
      } else {
        assert t.id == id && t.status == Created;
        assert Mentions(TxConfirmedId(id), id);
        assert forall code :: Mentions(TxFailedId(id, code), id);
      }
    }
  }

  lemma StepKeepsLink(w: State, s: Step)
    requires WalletOk(w) && LinkOk(w) && Enabled(w, s)
    ensures LinkOk(Apply(w, s))
  {
    match s
    case Api(key, req, id) => CreateKeepsLink(w, key, req, id);
    case Deliver(e, crashed) =>
      if !crashed && Id(e) !in w.processed {
        DeliveryKeepsLink(w, e);
      }
    case Progress(published) =>
      var ts := Advance(w, published).transfers;
      forall t | t in ts ensures StatusFollows(w.processed, t) {
        var j :| 0 <= j < |ts| && ts[j] == t;
        assert StatusFollows(w.processed, w.transfers[j]);
      }
    case AttachWallet(_, _) =>
    case SetUser(_, _) =>
  }

  lemma {:induction false} RunKeepsLink(w: State, steps: seq<Step>)
    requires WalletOk(w) && LinkOk(w) && ValidRun(w, steps)
    ensures LinkOk(Run(w, steps))
    decreases |steps|
  {
    if steps != [] {
      StepKeeps(w, steps[0]);
      StepKeepsLink(w, steps[0]);
      RunKeepsLink(Apply(w, steps[0]), steps[1..]);
    }
  }

  function SenderPosted(w: State, t: Transfer): int { Sum(w.books.entries, OnReference(SenderAccount(t), RefOf(t))) }
  function RecipientPosted(w: State, t: Transfer): int
  {
    Sum(w.books.entries, OnReference(RecipientAccount(t), RefOf(t)))
  }

  function SenderReserved(t: Transfer): int { HoldOn(SenderAccount(t))(t) }

  lemma SettledSums(t: Transfer)
    requires t.req.sender != t.req.recipient
    ensures Sum(Settled(t), OnAccount(SenderAccount(t))) == -t.req.amount
    ensures Sum(Settled(t), OnAccount(RecipientAccount(t))) == t.req.amount
    ensures Sum(Settled(t) + Unwound(t), OnAccount(SenderAccount(t))) == 0
    ensures Sum(Settled(t) + Unwound(t), OnAccount(RecipientAccount(t))) == 0
  {
    PairSum(t, SenderAccount(t));
    PairSum(t, RecipientAccount(t));
  }

  lemma PairSum(t: Transfer, a: Account)
    ensures Sum(Settled(t), OnAccount(a)) == OnAccount(a)(Settled(t)[0]) + OnAccount(a)(Settled(t)[1])
    ensures Sum(Settled(t) + Unwound(t), OnAccount(a)) ==
            Sum(Settled(t), OnAccount(a)) + OnAccount(a)(Unwound(t)[0]) + OnAccount(a)(Unwound(t)[1])
  {
    var s, u := Settled(t), Unwound(t);
    SumAppendTwo([], s[0], s[1], OnAccount(a));
    assert [] + [s[0], s[1]] == s;
    SumAppendTwo(s, u[0], u[1], OnAccount(a));
    assert s + [u[0], u[1]] == s + u;
  }

  /**
    * Whatever the order, duplication and interleaving of the events, a transfer's contribution to
    * (sender posted, recipient posted, sender reserved) depends only on the set of events applied.
    */
  lemma Confluence(steps: seq<Step>, t: Transfer)
    requires ValidRun(EMPTY, steps) && t in Run(EMPTY, steps).transfers
    ensures var w := Run(EMPTY, steps);
            var a := t.req.amount;
            (SenderPosted(w, t), RecipientPosted(w, t), SenderReserved(t)) ==
            if FailSeen(w.processed, t.id) then (0, 0, 0)
            else if ConfirmSeen(w.processed, t.id) then (-a, a, 0)
            else (0, 0, a)
  {
    EmptyOk();
    RunKeeps(EMPTY, steps);
    RunKeepsLink(EMPTY, steps);
    var w := Run(EMPTY, steps);
    assert StatusFollows(w.processed, t) && TransferOk(w.books, t);
    ContributionByStatus(w, t);
  }

  lemma ContributionByStatus(w: State, t: Transfer)
    requires TransferOk(w.books, t)
    ensures var a := t.req.amount;
            (SenderPosted(w, t), RecipientPosted(w, t), SenderReserved(t)) ==
            if t.status.Failed? then (0, 0, 0) else if t.status.Confirmed? then (-a, a, 0) else (0, 0, a)
  {
    RowsSum(w.books.entries, RefOf(t), SenderAccount(t));
    RowsSum(w.books.entries, RefOf(t), RecipientAccount(t));
    SettledSums(t);
  }

  /** A transfer's row keeps its identity and terms, and its status rank never decreases. */
  lemma {:induction false} RankNeverDecreases(w: State, steps: seq<Step>, i: nat)
    requires i < |w.transfers|
    ensures var ts := Run(w, steps).transfers;
            && i < |ts|
            && ts[i] == w.transfers[i].(status := ts[i].status)
            && Rank(w.transfers[i].status) <= Rank(ts[i].status)
    decreases |steps|
  {
    if steps != [] {
      StepRank(w, steps[0], i);
      RankNeverDecreases(Apply(w, steps[0]), steps[1..], i);
    }
  }

  lemma StepRank(w: State, s: Step, i: nat)
    requires i < |w.transfers|
    ensures var ts := Apply(w, s).transfers;
            && i < |ts|
            && ts[i] == w.transfers[i].(status := ts[i].status)
            && Rank(w.transfers[i].status) <= Rank(ts[i].status)
  {
    if s.Deliver? && !s.crashed {
      var marked := w.(processed := w.processed + {Id(s.event)});
      if Handle(marked, s.event).Done? {
        HandleRank(marked, s.event, i);
      }
    }
  }

  lemma HandleRank(w: State, e: Event, i: nat)
    requires i < |w.transfers| && Handle(w, e).Done?
    ensures var ts := Handle(w, e).state.transfers;
            && i < |ts|
            && ts[i] == w.transfers[i].(status := ts[i].status)
            && Rank(w.transfers[i].status) <= Rank(ts[i].status)
  {
  }

  // ---- API idempotency ----

  /** Committed keys and transfers are in bijection and no placeholder is ever committed. */
  ghost predicate KeysOk(w: State)
  {
    && (forall k :: k in w.keys ==> KeyHasTransfer(w, k))
    && (forall t :: t in w.transfers ==>
          t.key in w.keys && KeyHasTransfer(w, t.key) && w.keys[t.key].body.value.id == t.id)
  }

  ghost predicate KeyHasTransfer(w: State, k: string)
    requires k in w.keys
  {
    var row := w.keys[k];
    && row.status == ACCEPTED_202
    && row.body.Some?
    && row.body.value.key == k
    && row.body.value.req == row.request
    && exists t :: t in w.transfers && t.key == k && t.id == row.body.value.id && t.req == row.request
  }

  lemma KeysSurvive(w: State, w1: State)
    requires KeysOk(w) && w1.keys == w.keys && |w1.transfers| == |w.transfers|
    requires forall i :: 0 <= i < |w.transfers| ==> w1.transfers[i] == w.transfers[i].(status := w1.transfers[i].status)
    ensures KeysOk(w1)
  {
    forall k | k in w1.keys ensures KeyHasTransfer(w1, k) {
      assert KeyHasTransfer(w, k);
      var i :| 0 <= i < |w.transfers| && w.transfers[i].key == k && w.transfers[i].id == w.keys[k].body.value.id
          && w.transfers[i].req == w.keys[k].request;
      assert w1.transfers[i] in w1.transfers;
    }
    forall t | t in w1.transfers ensures t.key in w1.keys && w1.keys[t.key].body.value.id == t.id {
      var i :| 0 <= i < |w1.transfers| && w1.transfers[i] == t;
      assert w.transfers[i] in w.transfers;
    }
  }

  /**
    * One request against a consistent key table: an equal request under a known key replays the
    * stored response, a different one conflicts, and neither changes anything. A refused request
    * leaves the key claimable. An accepted one adds exactly one key and one transfer.
    */
  lemma RequestOutcomes(w: State, key: string, req: Request, id: TransferId)
    requires KeysOk(w)
    ensures var (w1, reply) := PostTransfer(w, key, req, id);
            match reply
            case Replayed(row) =>
                  w1 == w && key in w.keys && row == w.keys[key] && row.request == req && row.status == ACCEPTED_202
            case KeyReused => w1 == w && key in w.keys && w.keys[key].request != req
            case KeyInProgress => false
            case Declined(_) => w1 == w && key !in w1.keys
            case Created202(t) =>
              && key !in w.keys
              && w1.transfers == w.transfers + [t] && t.id == id && t.req == req && t.status == Created
              && w1.keys == w.keys[key := KeyRow(req, ACCEPTED_202, Some(t))]
              && KeysOk(w1)
  {
    if key in w.keys {
      assert KeyHasTransfer(w, key);
    } else {
      var (w1, reply) := PostTransfer(w, key, req, id);
      if reply.Created202? {
        NewKeyKeeps(w, key, req, reply.transfer, w1);
      }
    }
  }

  lemma NewKeyKeeps(w: State, key: string, req: Request, t: Transfer, w1: State)
    requires KeysOk(w) && key !in w.keys
    requires t.key == key && t.req == req
    requires w1.transfers == w.transfers + [t] && w1.keys == w.keys[key := KeyRow(req, ACCEPTED_202, Some(t))]
    ensures KeysOk(w1)
  {
    assert w1.transfers[|w.transfers|] == t;
    forall k | k in w1.keys ensures KeyHasTransfer(w1, k) {
      if k != key {
        assert KeyHasTransfer(w, k);
        var u :| u in w.transfers && u.key == k && u.id == w.keys[k].body.value.id && u.req == w.keys[k].request;
        assert u in w1.transfers;
      }
    }
    forall u | u in w1.transfers ensures u.key in w1.keys && w1.keys[u.key].body.value.id == u.id {
      if u in w.transfers {
        assert u.key in w.keys;
      }
    }
  }

  lemma StepKeepsKeys(w: State, s: Step)
    requires KeysOk(w)
    ensures KeysOk(Apply(w, s))
    ensures forall k :: k in w.keys ==> k in Apply(w, s).keys && Apply(w, s).keys[k] == w.keys[k]
  {
    match s
    case Api(key, req, id) => RequestOutcomes(w, key, req, id);
    case _ =>
      OtherStepsKeepKeys(w, s);
      KeysSurvive(w, Apply(w, s));
  }

  lemma OtherStepsKeepKeys(w: State, s: Step)
    requires !s.Api?
    ensures Apply(w, s).keys == w.keys && |Apply(w, s).transfers| == |w.transfers|
    ensures forall i :: 0 <= i < |w.transfers| ==>
          Apply(w, s).transfers[i] == w.transfers[i].(status := Apply(w, s).transfers[i].status)
  {
    forall i | 0 <= i < |w.transfers|
      ensures Apply(w, s).transfers[i] == w.transfers[i].(status := Apply(w, s).transfers[i].status)
    {
      StepRank(w, s, i);
    }
  }

  /** Over every run: keys and transfers stay in bijection and a committed key row never changes. */
  lemma {:induction false} RunKeepsKeys(w: State, steps: seq<Step>)
    requires KeysOk(w)
    ensures KeysOk(Run(w, steps))
    ensures forall k :: k in w.keys ==> k in Run(w, steps).keys && Run(w, steps).keys[k] == w.keys[k]
    decreases |steps|
  {
    if steps != [] {
      StepKeepsKeys(w, steps[0]);
      RunKeepsKeys(Apply(w, steps[0]), steps[1..]);
    }
  }

  /** However long after, replaying an accepted request returns the original response and changes nothing. */
  lemma AcceptedRequestReplays(
      w: State, key: string, req: Request, id: TransferId, steps: seq<Step>, again: Request, other: TransferId)
    requires KeysOk(w) && PostTransfer(w, key, req, id).1.Created202?
    ensures var (w1, first) := PostTransfer(w, key, req, id);
            var w2 := Run(w1, steps);
            PostTransfer(w2, key, again, other) ==
            (w2, if again == req then Replayed(KeyRow(req, ACCEPTED_202, Some(first.transfer))) else KeyReused)
  {
    RequestOutcomes(w, key, req, id);
    var w1 := PostTransfer(w, key, req, id).0;
    RunKeepsKeys(w1, steps);
    RequestOutcomes(Run(w1, steps), key, again, other);
  }

  // ---- effectively-once dispatch ----

  /** Whether a step is a delivery whose handler runs and commits. */
  predicate Effective(w: State, s: Step)
  {
    s.Deliver? ==>
      && !s.crashed
      && Id(s.event) !in w.processed
      && Handle(w.(processed := w.processed + {Id(s.event)}), s.event).Done?
  }

  /** The run without its duplicate, crashed and rolled-back deliveries. */
  function Firsts(w: State, steps: seq<Step>): seq<Step>
    decreases |steps|
  {
    if steps == [] then []
    else (if Effective(w, steps[0]) then [steps[0]] else []) + Firsts(Apply(w, steps[0]), steps[1..])
  }

  lemma {:induction false} ProcessedGrows(w: State, steps: seq<Step>)
    ensures w.processed <= Run(w, steps).processed
    decreases |steps|
  {
    if steps != [] {
      ProcessedGrows(Apply(w, steps[0]), steps[1..]);
    }
  }

  /**
    * Every schedule with duplicates, crashes, rolled-back handlers and redeliveries ends in the state
    * of its first successful dispatches alone, and those carry pairwise distinct, unseen event ids.
    */
  lemma EffectivelyOnce(w: State, steps: seq<Step>)
    ensures Run(w, Firsts(w, steps)) == Run(w, steps)
    ensures AllNew(w.processed, Firsts(w, steps))
  {
    FirstsReachSame(w, steps);
    FirstsAreNew(w, steps);
  }

  /** The deliveries carry identifiers not in `processed`, no two of them the same. */
  ghost predicate AllNew(processed: set<EventId>, steps: seq<Step>)
  {
    && (forall i :: 0 <= i < |steps| && steps[i].Deliver? ==> Id(steps[i].event) !in processed)
    && (forall i, j :: 0 <= i < j < |steps| && steps[i].Deliver? && steps[j].Deliver? ==>
          Id(steps[i].event) != Id(steps[j].event))
  }

  lemma {:induction false} FirstsReachSame(w: State, steps: seq<Step>)
    ensures Run(w, Firsts(w, steps)) == Run(w, steps)
    decreases |steps|
  {
    if steps != [] {
      var w1 := Apply(w, steps[0]);
      FirstsReachSame(w1, steps[1..]);
      var rest := Firsts(w1, steps[1..]);
      if Effective(w, steps[0]) {
        assert ([steps[0]] + rest)[1..] == rest;
      } else {
        IneffectiveIsNoOp(w, steps[0]);
        assert [] + rest == rest;
      }
    }
  }

  lemma IneffectiveIsNoOp(w: State, s: Step)
    requires !Effective(w, s)
    ensures Apply(w, s) == w
  {
  }

  lemma EffectiveIsRecorded(w: State, s: Step)
    ensures w.processed <= Apply(w, s).processed
    ensures Effective(w, s) && s.Deliver? ==> Id(s.event) in Apply(w, s).processed
  {
  }

  lemma {:induction false} FirstsAreNew(w: State, steps: seq<Step>)
    ensures AllNew(w.processed, Firsts(w, steps))
    decreases |steps|
  {
    if steps != [] {
      var w1 := Apply(w, steps[0]);
      FirstsAreNew(w1, steps[1..]);
      var rest := Firsts(w1, steps[1..]);
      EffectiveIsRecorded(w, steps[0]);
      if Effective(w, steps[0]) {
        NewWithFirst(w.processed, w1.processed, steps[0], rest);
      } else {
        IneffectiveIsNoOp(w, steps[0]);
        assert [] + rest == rest;
      }
    }
  }

  lemma NewWithFirst(processed: set<EventId>, after: set<EventId>, first: Step, rest: seq<Step>)
    requires processed <= after && AllNew(after, rest)
    requires first.Deliver? ==> Id(first.event) !in processed && Id(first.event) in after
    ensures AllNew(processed, [first] + rest)
  {
  }

  // ---- the second layer: replay after processed_events is lost ----

  /** The transfer exists, or the address is attached, when the event is handled. */
  predicate TargetKnown(w: State, e: Event)
  {
    match e
    case TxConfirmed(id) => Find(w.transfers, id).Some?
    case TxFailed(id, _, _) => Find(w.transfers, id).Some?
    case DepositConfirmed(_, _, to, _, _) => to in w.directory.owners
    case DepositReorged(_, _, to, _, _, wasConfirmed) => wasConfirmed ==> to in w.directory.owners
    case _ => true
  }

  /** The ledger already holds everything the event can do. */
  ghost predicate Absorbed(w: State, e: Event)
  {
    match e
    case TxConfirmed(id) =>
      exists i :: 0 <= i < |w.transfers| && w.transfers[i].id == id && !Open(w.transfers[i].status)
    case TxFailed(id, _, _) =>
      exists i :: 0 <= i < |w.transfers| && w.transfers[i].id == id && w.transfers[i].status.Failed?
    case DepositConfirmed(dep, block, to, asset, _) => DepositAbsorbed(w, to, asset, DepositCredit, dep, block)
    case DepositReorged(dep, block, to, asset, _, wasConfirmed) =>
      wasConfirmed ==> DepositAbsorbed(w, to, asset, Reversal, dep, block)
    case _ => true
  }

  ghost predicate DepositAbsorbed(w: State, to: Addr, asset: Asset, kind: EntryKind, dep: DepositId, block: Hash)
  {
    && to in w.directory.owners
    && Account(w.directory.owners[to], asset) in w.books.balances
    && HasKey(w.books.entries, Key(w.directory.owners[to], kind, DepositReference(dep, block)))
  }

  lemma HandledIsAbsorbed(w: State, e: Event)
    requires WalletOk(w) && TargetKnown(w, e) && Handle(w, e).Done?
    ensures Absorbed(Handle(w, e).state, e)
  {
    var w1 := Handle(w, e).state;
    match e
    case TxConfirmed(id) =>
      SettleExplicit(w, id);
      var i := Find(w.transfers, id).value;
      assert w1.transfers[i].id == id && !Open(w1.transfers[i].status);
    case TxFailed(id, _, _) =>
      FailExplicit(w, id);
      var i := Find(w.transfers, id).value;
      assert w1.transfers[i].id == id && w1.transfers[i].status.Failed?;
    case DepositConfirmed(dep, block, to, asset, amount) =>
      PostedIsAbsorbed(w, to, asset, amount, DepositCredit, dep, block);
    case DepositReorged(dep, block, to, asset, amount, wasConfirmed) =>
      if wasConfirmed {
        PostedIsAbsorbed(w, to, asset, -amount, Reversal, dep, block);
      }
    case _ =>
  }

  lemma PostedIsAbsorbed(w: State, to: Addr, asset: Asset, amount: int, kind: EntryKind, dep: DepositId, block: Hash)
    requires to in w.directory.owners && PostDeposit(w, to, asset, amount, kind, dep, block).Done?
    ensures DepositAbsorbed(PostDeposit(w, to, asset, amount, kind, dep, block).state, to, asset, kind, dep, block)
  {
    var p := Posting(w.directory.owners[to], amount, kind, DepositReference(dep, block));
    PostSingle(w.books, asset, p);
    var r := PostOne(w.books, asset, p);
    if r.written == 1 {
      assert r.books.entries[|r.books.entries| - 1] == EntryFor(asset, p);
      assert KeyOf(EntryFor(asset, p)) == Key(p.user, kind, p.ref);
    }
  }

  /** Entries, balance rows and owners are only ever added. */
  ghost predicate Grows(w: State, w1: State)
  {
    && w.books.entries <= w1.books.entries
    && w.books.balances.Keys <= w1.books.balances.Keys
    && (forall a :: a in w.directory.owners ==>
          a in w1.directory.owners && w1.directory.owners[a] == w.directory.owners[a])
  }

  lemma {:induction false} PostAllGrows(b: Books, asset: Asset, ps: seq<Posting>)
    ensures var r := PostAll(b, asset, ps);
            r.Posted? ==> b.entries <= r.books.entries && b.balances.Keys <= r.books.balances.Keys
    decreases |ps|
  {
    if ps != [] {
      var r := PostOne(b, asset, ps[0]);
      if r.Posted? {
        PostAllGrows(r.books, asset, ps[1..]);
      }
    }
  }

  lemma HandleGrows(w: State, e: Event)
    requires Handle(w, e).Done?
    ensures Grows(w, Handle(w, e).state)
  {
    match e
    case TxConfirmed(id) =>
      var f := Find(w.transfers, id);
      if f.Some? && Open(w.transfers[f.value].status) {
        var t := w.transfers[f.value];
        var released := ReleaseHold(w.books, SenderAccount(t), t.req.amount).value;
        PostAllGrows(released, t.req.asset, SortByUser([Debit(t), Credit(t)]));
      }
    case TxFailed(id, _, _) =>
      var f := Find(w.transfers, id);
      if f.Some? && w.transfers[f.value].status.Confirmed? {
        var t := w.transfers[f.value];
        PostAllGrows(w.books, t.req.asset, SortByUser([Refund(t), Clawback(t)]));
      }
    case DepositConfirmed(dep, block, to, asset, amount) =>
      if to in w.directory.owners {
        var p := Posting(w.directory.owners[to], amount, DepositCredit, DepositReference(dep, block));
        PostAllGrows(w.books, asset, SortByUser([p]));
      }
    case DepositReorged(dep, block, to, asset, amount, _) =>
      if to in w.directory.owners {
        var p := Posting(w.directory.owners[to], -amount, Reversal, DepositReference(dep, block));
        PostAllGrows(w.books, asset, SortByUser([p]));
      }
    case _ =>
  }

  lemma StepGrows(w: State, s: Step)
    ensures Grows(w, Apply(w, s))
  {
    if s.Deliver? {
      var marked := w.(processed := w.processed + {Id(s.event)});
      if Handle(marked, s.event).Done? {
        HandleGrows(marked, s.event);
      }
    }
  }

  lemma AbsorbedSurvivesStep(w: State, s: Step, e: Event)
    requires Absorbed(w, e)
    ensures Absorbed(Apply(w, s), e)
  {
    StepGrows(w, s);
    var w1 := Apply(w, s);
    if e.TxConfirmed? {
      var i :| 0 <= i < |w.transfers| && w.transfers[i].id == e.transfer && !Open(w.transfers[i].status);
      StepRank(w, s, i);
      assert w1.transfers[i].id == e.transfer && !Open(w1.transfers[i].status);
    } else if e.TxFailed? {
      var i :| 0 <= i < |w.transfers| && w.transfers[i].id == e.transfer && w.transfers[i].status.Failed?;
      StepRank(w, s, i);
      assert w1.transfers[i].id == e.transfer && w1.transfers[i].status.Failed?;
    } else if (e.DepositConfirmed? || (e.DepositReorged? && e.wasConfirmed)) {
      var kind := if e.DepositConfirmed? then DepositCredit else Reversal;
      var key := Key(w.directory.owners[e.to], kind, DepositReference(e.dep, e.block));
      KeySurvives(w.books.entries, w1.books.entries, key);
    }
  }

  lemma KeySurvives(entries: seq<Entry>, more: seq<Entry>, k: Key)
    requires entries <= more && HasKey(entries, k)
    ensures HasKey(more, k)
  {
    var i :| 0 <= i < |entries| && KeyOf(entries[i]) == k;
    assert more[i] == entries[i];
  }

  lemma AbsorbedReplayIsNoOp(w: State, e: Event)
    requires WalletOk(w) && Absorbed(w, e)
    ensures Handle(w, e).Done? && Handle(w, e).state.books == w.books
  {
    match e
    case TxConfirmed(id) => TheTransfer(w, id);
    case TxFailed(id, _, _) => TheTransfer(w, id);
    case DepositConfirmed(dep, block, to, asset, amount) =>
      PostSingle(w.books, asset, Posting(w.directory.owners[to], amount, DepositCredit, DepositReference(dep, block)));
    case DepositReorged(dep, block, to, asset, amount, wasConfirmed) =>
      if wasConfirmed {
        PostSingle(w.books, asset, Posting(w.directory.owners[to], -amount, Reversal, DepositReference(dep, block)));
      }
    case _ =>
  }

  lemma TheTransfer(w: State, id: TransferId)
    requires WalletOk(w)
    ensures forall i :: 0 <= i < |w.transfers| && w.transfers[i].id == id ==> Find(w.transfers, id) == Some(i)
  {
    forall i | 0 <= i < |w.transfers| && w.transfers[i].id == id ensures Find(w.transfers, id) == Some(i) {
      assert w.transfers[i] in w.transfers;
    }
  }

  /**
    * Once an event whose target existed was handled, replaying it after any further run leaves ledger
    * and balances unchanged, whatever is left of `processed_events`.
    */
  lemma {:induction false} ReplayAfterLossIsNoOp(w: State, e: Event, steps: seq<Step>, left: set<EventId>)
    requires WalletOk(w) && Absorbed(w, e) && ValidRun(w, steps)
    ensures var w1 := Run(w, steps).(processed := left);
            Dispatch(w1, e).books == w1.books
    decreases |steps|
  {
    if steps == [] {
      AbsorbedReplayIsNoOp(w.(processed := left + {Id(e)}), e);
    } else {
      StepKeeps(w, steps[0]);
      AbsorbedSurvivesStep(w, steps[0], e);
      ReplayAfterLossIsNoOp(Apply(w, steps[0]), e, steps[1..], left);
    }
  }

  /**
    * An event that took effect in a run, while its transfer or wallet existed, can be replayed after any
    * continuation and any loss of `processed_events` without touching ledger or balances.
    */
  lemma AppliedReplayIsNoOp(before: seq<Step>, e: Event, after: seq<Step>, left: set<EventId>)
    requires ValidRun(EMPTY, before)
    requires var w := Run(EMPTY, before);
             && Effective(w, Deliver(e, false)) && TargetKnown(w, e)
             && ValidRun(Apply(w, Deliver(e, false)), after)
    ensures var w := Run(Apply(Run(EMPTY, before), Deliver(e, false)), after).(processed := left);
            Dispatch(w, e).books == w.books
  {
    EmptyOk();
    RunKeeps(EMPTY, before);
    var w := Run(EMPTY, before);
    var marked := w.(processed := w.processed + {Id(e)});
    assert WalletOk(marked);
    HandledIsAbsorbed(marked, e);
    StepKeeps(w, Deliver(e, false));
    ReplayAfterLossIsNoOp(Apply(w, Deliver(e, false)), e, after, left);
  }

  /**
    * The hypothesis is needed: a credit ignored for want of a wallet takes effect when replayed after the wallet is
    * attached.
    */
  lemma IgnoredCreditReplays(w: State, e: Event, k: WalletKey)
    requires WalletOk(w) && e.DepositConfirmed? && e.amount > 0
    requires e.to !in w.directory.owners && k !in w.directory.wallets
    requires !HasKey(w.books.entries, Key(k.user, DepositCredit, DepositReference(e.dep, e.block)))
    ensures Handle(w, e) == Done(w, Ignored) && !TargetKnown(w, e)
    ensures var w1 := Attach(w, k, e.to);
            Handle(w1, e).Done? && |Handle(w1, e).state.books.entries| == |w1.books.entries| + 1
  {
    var w1 := Attach(w, k, e.to);
    AttachKeeps(w, k, e.to);
    var p := Posting(k.user, e.amount, DepositCredit, DepositReference(e.dep, e.block));
    PostSingle(w1.books, e.asset, p);
    WithBalanceKeeps(w1.books, Account(k.user, e.asset));
  }

  // ---- exactly which replays take effect ----

  function UserEntry(w: State, to: Addr, kind: EntryKind, dep: DepositId, block: Hash): Key
    requires to in w.directory.owners
  {
    Key(w.directory.owners[to], kind, DepositReference(dep, block))
  }

  /** What must be true now for a replay of the event to post ledger entries. */
  ghost predicate Posts(w: State, e: Event)
  {
    match e
    case TxConfirmed(id) =>
      var f := Find(w.transfers, id);
      f.Some? && Open(w.transfers[f.value].status)
    case TxFailed(id, _, _) =>
      var f := Find(w.transfers, id);
      && f.Some? && w.transfers[f.value].status.Confirmed?
      && Available(w.books, RecipientAccount(w.transfers[f.value])) >= w.transfers[f.value].req.amount
    case DepositConfirmed(dep, block, to, _, _) =>
      to in w.directory.owners && !HasKey(w.books.entries, UserEntry(w, to, DepositCredit, dep, block))
    case DepositReorged(dep, block, to, asset, amount, wasConfirmed) =>
      && wasConfirmed && to in w.directory.owners
      && !HasKey(w.books.entries, UserEntry(w, to, Reversal, dep, block))
      && Available(w.books, Account(w.directory.owners[to], asset)) >= amount
    case _ => false
  }

  /** What a replay can do without posting: release a hold, mark a broadcast, or open an empty balance row. */
  ghost predicate Touches(w: State, e: Event)
  {
    match e
    case TxFailed(id, _, _) =>
      var f := Find(w.transfers, id);
      f.Some? && Open(w.transfers[f.value].status)
    case TxBroadcasted(id) =>
      var f := Find(w.transfers, id);
      f.Some? && Open(w.transfers[f.value].status) && !w.transfers[f.value].status.Broadcast?
    case DepositConfirmed(dep, block, to, asset, _) => OnlyBalanceMissing(w, to, asset, DepositCredit, dep, block)
    case DepositReorged(dep, block, to, asset, _, wasConfirmed) =>
      wasConfirmed && OnlyBalanceMissing(w, to, asset, Reversal, dep, block)
    case _ => false
  }

  ghost predicate OnlyBalanceMissing(w: State, to: Addr, asset: Asset, kind: EntryKind, dep: DepositId, block: Hash)
  {
    && to in w.directory.owners && HasKey(w.books.entries, UserEntry(w, to, kind, dep, block))
    && Account(w.directory.owners[to], asset) !in w.books.balances
  }

  lemma DepositPosts(w: State, to: Addr, asset: Asset, amount: int, kind: EntryKind, dep: DepositId, block: Hash)
    requires WalletOk(w) && amount != 0 && to in w.directory.owners
    ensures var o := PostDeposit(w, to, asset, amount, kind, dep, block);
            var a := Account(w.directory.owners[to], asset);
            if HasKey(w.books.entries, UserEntry(w, to, kind, dep, block)) then
              o == Done(w.(books := WithBalance(w.books, a)), Duplicate)
            else if Available(w.books, a) + amount < 0 then o.Aborted?
            else o.Done? && |o.state.books.entries| == |w.books.entries| + 1
  {
    var a := Account(w.directory.owners[to], asset);
    PostSingle(w.books, asset, Posting(a.user, amount, kind, DepositReference(dep, block)));
    WithBalanceKeeps(w.books, a);
    assert Solvent(WithBalance(w.books, a).balances[a]);
  }

  lemma HandlePostsIff(w: State, e: Event)
    requires WalletOk(w) && (e.DepositConfirmed? || e.DepositReorged? ==> e.amount > 0)
    ensures Handle(w, e).Done? && Handle(w, e).state.books.entries != w.books.entries <==> Posts(w, e)
    ensures Handle(w, e).Done? && Handle(w, e).state != w <==> Posts(w, e) || Touches(w, e)
  {
    match e
    case TxConfirmed(id) => SettleExplicit(w, id);
    case TxFailed(id, _, _) => FailExplicit(w, id);
    case DepositConfirmed(dep, block, to, asset, amount) =>
      if to in w.directory.owners {
        DepositPosts(w, to, asset, amount, DepositCredit, dep, block);
        var a := Account(w.directory.owners[to], asset);
        assert a in w.books.balances ==> Solvent(w.books.balances[a]);
      }
    case DepositReorged(dep, block, to, asset, amount, wasConfirmed) =>
      if wasConfirmed && to in w.directory.owners {
        DepositPosts(w, to, asset, -amount, Reversal, dep, block);
      }
    case _ =>
  }

  /**
    * Whatever is left of `processed_events` and whatever happened before: an event handled again posts to the
    * ledger iff `Posts`, and changes anything besides the dedupe table iff `Posts` or `Touches`.
    */
  lemma ReplayWritesIff(steps: seq<Step>, e: Event, left: set<EventId>)
    requires ValidRun(EMPTY, steps) && Id(e) !in left
    requires e.DepositConfirmed? || e.DepositReorged? ==> e.amount > 0
    ensures var w := Run(EMPTY, steps).(processed := left);
            && (Dispatch(w, e).books.entries != w.books.entries <==> Posts(w, e))
            && (Dispatch(w, e).(processed := left) != w <==> Posts(w, e) || Touches(w, e))
  {
    EmptyOk();
    RunKeeps(EMPTY, steps);
    var w := Run(EMPTY, steps).(processed := left);
    var marked := w.(processed := left + {Id(e)});
    assert WalletOk(marked);
    HandlePostsIff(marked, e);
    if Handle(marked, e).Done? {
      HandleKeepsProcessed(marked, e);
    }
  }

  lemma HandleKeepsProcessed(w: State, e: Event)
    requires Handle(w, e).Done?
    ensures Handle(w, e).state.processed == w.processed
  {
  }

  /** What the label of a handled event says: it found its target open, or decided already, or not at all. */
  predicate LabelFits(w: State, e: Event, tag: Label)
  {
    match e
    case TxBroadcasted(id) =>
      var f := Find(w.transfers, id);
      tag == if f.None? then Ignored else if Open(w.transfers[f.value].status) then Processed else Duplicate
    case TxConfirmed(id) =>
      var f := Find(w.transfers, id);
      tag == if f.None? || w.transfers[f.value].status == Failed then Ignored
             else if w.transfers[f.value].status == Confirmed then Duplicate
             else Processed
    case TxFailed(id, _, _) =>
      var f := Find(w.transfers, id);
      tag == if f.None? then Ignored else if w.transfers[f.value].status == Failed then Duplicate else Processed
    case DepositConfirmed(dep, block, to, _, _) => DepositLabelFits(w, to, DepositCredit, dep, block, tag)
    case DepositReorged(dep, block, to, _, _, wasConfirmed) =>
      if wasConfirmed then DepositLabelFits(w, to, Reversal, dep, block, tag) else tag == Processed
    case DepositDetected(_, _) => tag == Processed
    case TransferRequested(_, _, _, _, _) => tag == Ignored
  }

  predicate DepositLabelFits(w: State, to: Addr, kind: EntryKind, dep: DepositId, block: Hash, tag: Label)
  {
    tag == if to !in w.directory.owners then Ignored
           else if HasKey(w.books.entries, UserEntry(w, to, kind, dep, block)) then Duplicate
           else Processed
  }

  lemma LabelTells(w: State, e: Event)
    requires Handle(w, e).Done?
    ensures LabelFits(w, e, Handle(w, e).tag)
  {
    match e
    case DepositConfirmed(dep, block, to, asset, amount) =>
      DepositLabel(w, to, asset, amount, DepositCredit, dep, block);
    case DepositReorged(dep, block, to, asset, amount, _) => DepositLabel(w, to, asset, -amount, Reversal, dep, block);
    case _ =>
  }

  lemma DepositLabel(w: State, to: Addr, asset: Asset, amount: int, kind: EntryKind, dep: DepositId, block: Hash)
    ensures var o := PostDeposit(w, to, asset, amount, kind, dep, block);
            o.Done? ==> DepositLabelFits(w, to, kind, dep, block, o.tag)
  {
    if to in w.directory.owners {
      PostSingle(w.books, asset, Posting(w.directory.owners[to], amount, kind, DepositReference(dep, block)));
    }
  }

  /** A reversal ignored for want of a wallet also takes effect after the attachment, if the money is there. */
  lemma IgnoredReversalReplays(w: State, e: Event, k: WalletKey)
    requires WalletOk(w) && e.DepositReorged? && e.wasConfirmed && e.amount > 0
    requires e.to !in w.directory.owners && k !in w.directory.wallets
    requires !HasKey(w.books.entries, Key(k.user, Reversal, DepositReference(e.dep, e.block)))
    requires Available(w.books, Account(k.user, e.asset)) >= e.amount
    ensures Handle(w, e) == Done(w, Ignored) && !TargetKnown(w, e)
    ensures var w1 := Attach(w, k, e.to);
            Handle(w1, e).Done? && |Handle(w1, e).state.books.entries| == |w1.books.entries| + 1
  {
    var w1 := Attach(w, k, e.to);
    AttachKeeps(w, k, e.to);
    DepositPosts(w1, e.to, e.asset, -e.amount, Reversal, e.dep, e.block);
  }

  // ---- reconcile ----

  /** What reconcile computes: every snapshot agrees with its ledger sum and no entry is outside a snapshot. */
  lemma ReconcileIsClean(steps: seq<Step>)
    requires ValidRun(EMPTY, steps)
    ensures var b := Run(EMPTY, steps).books;
            && (forall a :: a in b.balances ==> b.balances[a].posted == Sum(b.entries, OnAccount(a)))
            && (forall e :: e in b.entries ==> AccountOf(e) in b.balances)
            && (forall a :: a in b.balances ==> b.balances[a].reserved == Sum(Run(EMPTY, steps).transfers, HoldOn(a)))
            && (forall asset :: Sum(b.entries, TransferLeg(asset)) == 0)
  {
    EmptyOk();
    RunKeeps(EMPTY, steps);
  }
}
