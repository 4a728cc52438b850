/** One request to move money: when it is accepted, what it creates, and between whose addresses it moves. */
module Requests {
  import opened Events
  import opened Ledger
  import opened Wallet
  import opened WalletInvariant
  import opened WalletProperties

  function WalletOf(req: Request, user: UserId): WalletKey { WalletKey(user, req.network, req.asset) }

  predicate UserActive(d: Directory, user: UserId) { user in d.users && d.users[user] }

  predicate WalletActive(d: Directory, k: WalletKey) { k in d.wallets && d.wallets[k].active }

  /** Everything a transfer needs: two active parties with active wallets, and the money. */
  predicate Acceptable(w: State, req: Request)
  {
    var a := Account(req.sender, req.asset);
    && req.sender != req.recipient
    && UserActive(w.directory, req.sender) && UserActive(w.directory, req.recipient)
    && WalletActive(w.directory, WalletOf(req, req.sender)) && WalletActive(w.directory, WalletOf(req, req.recipient))
    && req.amount > 0
    && a in w.books.balances && req.amount <= w.books.balances[a].posted - w.books.balances[a].reserved
  }

  /** What a refusal says is true of the request, and nothing checked before it failed. */
  predicate Explains(w: State, req: Request, error: CreateError)
  {
    var d := w.directory;
    var a := Account(req.sender, req.asset);
    var known := req.sender in d.users && req.recipient in d.users;
    var usable := UserActive(d, req.sender) && UserActive(d, req.recipient);
    var found := WalletOf(req, req.sender) in d.wallets && WalletOf(req, req.recipient) in d.wallets;
    var open := WalletActive(d, WalletOf(req, req.sender)) && WalletActive(d, WalletOf(req, req.recipient));
    match error
    case SameParties => req.sender == req.recipient
    case UserNotFound => req.sender != req.recipient && !known
    case UserInactive => req.sender != req.recipient && known && !usable
    case WalletNotFound => req.sender != req.recipient && usable && !found
    case WalletInactive => req.sender != req.recipient && usable && found && !open
    case InsufficientFunds =>
      && req.sender != req.recipient && usable && open
      && (a in w.books.balances ==> w.books.balances[a].posted - w.books.balances[a].reserved < req.amount)
    case AlreadyCreated => req.sender != req.recipient && usable && open && req.amount <= 0
  }

  function AddressOf(w: State, req: Request, user: UserId): Addr
    requires WalletOf(req, user) in w.directory.wallets
  {
    w.directory.wallets[WalletOf(req, user)].address
  }

  /**
    * The answer to a request and what it changes. A new transfer goes from the sender's wallet to the
    * recipient's, holds its amount on the sender's account and queues one request; nothing else changes.
    */
  predicate Answered(w: State, key: string, req: Request, id: TransferId, w1: State, reply: Reply)
  {
    match reply
    case Created202(t) =>
      && key !in w.keys && Acceptable(w, req)
      && var from, to := AddressOf(w, req, req.sender), AddressOf(w, req, req.recipient);
         var a := Account(req.sender, req.asset);
         var balance := w.books.balances[a];
         && t == Transfer(id, key, req, from, to, Created)
         && w1.transfers == w.transfers + [t]
         && w1.outbox == w.outbox + [TransferRequested(id, from, to, req.asset, req.amount)]
         && w1.books.entries == w.books.entries
         && w1.books.balances == w.books.balances[a := balance.(reserved := balance.reserved + req.amount)]
         && w1.keys == w.keys[key := KeyRow(req, 202, Some(t))]
         && w1.processed == w.processed && w1.directory == w.directory
    case Declined(error) => w1 == w && key !in w.keys && !Acceptable(w, req) && Explains(w, req, error)
    case Replayed(row) => w1 == w && key in w.keys && w.keys[key].request == req && row == w.keys[key]
    case KeyReused => w1 == w && key in w.keys && w.keys[key].request != req
    case KeyInProgress => false
  }

  // ---- what is true of all transfers ----

  /** One queued request per transfer, in order, with the transfer's addresses and amount. */
  ghost predicate Queued(w: State)
  {
    && |w.outbox| == |w.transfers|
    && forall i :: 0 <= i < |w.outbox| ==>
         var t := w.transfers[i];
         w.outbox[i] == TransferRequested(t.id, t.fromAddr, t.toAddr, t.req.asset, t.req.amount)
  }

  /** The wallet of a party of the transfer has this address, and the address belongs to that party. */
  predicate Owned(d: Directory, req: Request, user: UserId, address: Addr)
  {
    && WalletOf(req, user) in d.wallets && d.wallets[WalletOf(req, user)].address == address
    && address in d.owners && d.owners[address] == user
  }

  ghost predicate WalletsOwned(d: Directory)
  {
    forall k :: k in d.wallets ==> d.wallets[k].address in d.owners && d.owners[d.wallets[k].address] == k.user
  }

  /** A transfer goes from an address of its sender to an address of its recipient. */
  ghost predicate Addressed(w: State)
  {
    && WalletsOwned(w.directory)
    && forall t :: t in w.transfers ==>
         Owned(w.directory, t.req, t.req.sender, t.fromAddr) && Owned(w.directory, t.req, t.req.recipient, t.toAddr)
  }

  ghost predicate RequestsKept(w: State) { Queued(w) && Addressed(w) }

  lemma QueuedIsNew(w: State, id: TransferId, from: Addr, to: Addr, asset: Asset, amount: int)
    requires Queued(w) && forall t :: t in w.transfers ==> t.id != id
    ensures !Emitted(w.outbox, Id(TransferRequested(id, from, to, asset, amount)))
  {
    if e :| e in w.outbox && Id(e) == RequestedId(id) {
      var i :| 0 <= i < |w.outbox| && w.outbox[i] == e;
      assert w.transfers[i] in w.transfers;
    }
  }

  lemma KeyIsFree(w: State, key: string)
    requires KeysOk(w) && key !in w.keys
    ensures !KeyTaken(w.transfers, key)
  {
  }

  /** The whole effect of an acceptable request on transfers, outbox and books. */
  lemma AcceptableIsCreated(w: State, key: string, req: Request, id: TransferId)
    requires BooksOk(w.books) && Queued(w) && (forall t :: t in w.transfers ==> t.id != id)
    requires !KeyTaken(w.transfers, key) && Acceptable(w, req)
    ensures var from, to := AddressOf(w, req, req.sender), AddressOf(w, req, req.recipient);
            var a := Account(req.sender, req.asset);
            var held := w.books.balances[a].(reserved := w.books.balances[a].reserved + req.amount);
            var t := Transfer(id, key, req, from, to, Created);
            CreateTransfer(w, key, req, id) ==
            Accepted(w.(books := Books(w.books.entries, w.books.balances[a := held]), transfers := w.transfers + [t],
                        outbox := w.outbox + [TransferRequested(id, from, to, req.asset, req.amount)]), t)
  {
    QueuedIsNew(w, id, AddressOf(w, req, req.sender), AddressOf(w, req, req.recipient), req.asset, req.amount);
    assert Solvent(w.books.balances[Account(req.sender, req.asset)]);
  }

  lemma UnacceptableIsRefused(w: State, key: string, req: Request, id: TransferId)
    requires BooksOk(w.books) && !KeyTaken(w.transfers, key) && !Acceptable(w, req)
    ensures var r := CreateTransfer(w, key, req, id); r.Rejected? && Explains(w, req, r.error)
  {
    var a := Account(req.sender, req.asset);
    if a in w.books.balances {
      assert Solvent(w.books.balances[a]);
    }
  }

  lemma NewRequest(w: State, key: string, req: Request, id: TransferId)
    requires BooksOk(w.books) && Queued(w) && (forall t :: t in w.transfers ==> t.id != id)
    requires key !in w.keys && !KeyTaken(w.transfers, key)
    ensures Answered(w, key, req, id, PostTransfer(w, key, req, id).0, PostTransfer(w, key, req, id).1)
  {
    var claimed := Claim(w, key, req);
    if Acceptable(w, req) {
      AcceptableIsCreated(claimed, key, req, id);
    } else {
      UnacceptableIsRefused(claimed, key, req, id);
    }
  }

  lemma KnownRequest(w: State, key: string, req: Request, id: TransferId)
    requires KeysOk(w) && key in w.keys
    ensures Answered(w, key, req, id, PostTransfer(w, key, req, id).0, PostTransfer(w, key, req, id).1)
  {
    assert KeyHasTransfer(w, key);
  }

  /** The answer is exactly this, for every request in a state the service can be in. */
  lemma RequestIsAnswered(w: State, key: string, req: Request, id: TransferId)
    requires WalletOk(w) && KeysOk(w) && Queued(w) && forall t :: t in w.transfers ==> t.id != id
    ensures Answered(w, key, req, id, PostTransfer(w, key, req, id).0, PostTransfer(w, key, req, id).1)
  {
    if key in w.keys {
      KnownRequest(w, key, req, id);
    } else {
      KeyIsFree(w, key);
      NewRequest(w, key, req, id);
    }
  }

  // ---- over every run ----

  lemma AddedKeepsQueued(w: State, w1: State, t: Transfer)
    requires Queued(w) && w1.transfers == w.transfers + [t]
    requires w1.outbox == w.outbox + [TransferRequested(t.id, t.fromAddr, t.toAddr, t.req.asset, t.req.amount)]
    ensures Queued(w1)
  {
  }

  lemma AddedKeepsAddressed(w: State, w1: State, t: Transfer)
    requires Addressed(w) && w1.transfers == w.transfers + [t] && w1.directory == w.directory
    requires Owned(w.directory, t.req, t.req.sender, t.fromAddr) && Owned(w.directory, t.req, t.req.recipient, t.toAddr)
    ensures Addressed(w1)
  {
  }

  lemma RequestKeepsRequests(w: State, key: string, req: Request, id: TransferId)
    requires WalletOk(w) && KeysOk(w) && RequestsKept(w) && FreshId(w, id)
    ensures RequestsKept(PostTransfer(w, key, req, id).0)
  {
    RequestIsAnswered(w, key, req, id);
    AnsweredKeepsRequests(w, key, req, id, PostTransfer(w, key, req, id).0, PostTransfer(w, key, req, id).1);
  }

  lemma AnsweredKeepsRequests(w: State, key: string, req: Request, id: TransferId, w1: State, reply: Reply)
    requires RequestsKept(w) && Answered(w, key, req, id, w1, reply)
    ensures RequestsKept(w1)
  {
    if reply.Created202? {
      AddedKeepsQueued(w, w1, reply.transfer);
      AddedKeepsAddressed(w, w1, reply.transfer);
    }
  }

  lemma HandleKeepsRequests(w: State, e: Event)
    requires Handle(w, e).Done?
    ensures Handle(w, e).state.outbox == w.outbox && Handle(w, e).state.directory == w.directory
  {
  }

  lemma DeliveryKeepsOutbox(w: State, e: Event)
    ensures Dispatch(w, e).outbox == w.outbox && Dispatch(w, e).directory == w.directory
  {
    var marked := w.(processed := w.processed + {Id(e)});
    if Handle(marked, e).Done? {
      HandleKeepsRequests(marked, e);
    }
  }

  lemma AttachKeepsRequests(w: State, k: WalletKey, address: Addr)
    requires RequestsKept(w)
    ensures RequestsKept(Attach(w, k, address))
  {
  }

  lemma SameTermsKeepRequests(w: State, w1: State)
    requires RequestsKept(w) && w1.outbox == w.outbox && |w1.transfers| == |w.transfers|
    requires w1.directory.wallets == w.directory.wallets && w1.directory.owners == w.directory.owners
    requires forall i :: 0 <= i < |w.transfers| ==> w1.transfers[i] == w.transfers[i].(status := w1.transfers[i].status)
    ensures RequestsKept(w1)
  {
    forall t | t in w1.transfers
      ensures Owned(w.directory, t.req, t.req.sender, t.fromAddr)
      ensures Owned(w.directory, t.req, t.req.recipient, t.toAddr)
    {
      var i :| 0 <= i < |w1.transfers| && w1.transfers[i] == t;
      assert w.transfers[i] in w.transfers;
    }
  }

  lemma StepKeepsRequests(w: State, s: Step)
    requires WalletOk(w) && KeysOk(w) && RequestsKept(w) && Enabled(w, s)
    ensures RequestsKept(Apply(w, s))
  {
    match s
    case Api(key, req, id) => RequestKeepsRequests(w, key, req, id);
    case AttachWallet(k, address) => AttachKeepsRequests(w, k, address);
    case Deliver(e, crashed) =>
      OtherStepsKeepKeys(w, s);
      DeliveryKeepsOutbox(w, e);
      SameTermsKeepRequests(w, Apply(w, s));
    case _ =>
      OtherStepsKeepKeys(w, s);
      SameTermsKeepRequests(w, Apply(w, s));
  }

  /** In every run each transfer moves money from an address of its sender to one of its recipient, as it was asked. */
  lemma {:induction false} RunKeepsRequests(w: State, steps: seq<Step>)
    requires WalletOk(w) && KeysOk(w) && RequestsKept(w) && ValidRun(w, steps)
    ensures WalletOk(Run(w, steps)) && KeysOk(Run(w, steps)) && RequestsKept(Run(w, steps))
    decreases |steps|
  {
    if steps != [] {
      StepKeeps(w, steps[0]);
      StepKeepsKeys(w, steps[0]);
      StepKeepsRequests(w, steps[0]);
      RunKeepsRequests(Apply(w, steps[0]), steps[1..]);
    }
  }

  /**
    * After every run a request is accepted iff its key is unused and it is acceptable; what it then creates
    * and every other answer is as `Answered` says.
    */
  lemma AcceptedIff(steps: seq<Step>, key: string, req: Request, id: TransferId)
    requires ValidRun(EMPTY, steps) && FreshId(Run(EMPTY, steps), id)
    ensures var w := Run(EMPTY, steps);
            var (w1, reply) := PostTransfer(w, key, req, id);
            && Answered(w, key, req, id, w1, reply)
            && (reply.Created202? <==> key !in w.keys && Acceptable(w, req))
  {
    EmptyOk();
    RunKeepsRequests(EMPTY, steps);
    RequestIsAnswered(Run(EMPTY, steps), key, req, id);
  }

  // ---- where users and wallets come from ----

  /** What the last change of a user's status said. */
  function LastSet(steps: seq<Step>, user: UserId): Option<bool>
  {
    if steps == [] then None
    else
      var last := steps[|steps| - 1];
      if last.SetUser? && last.user == user then Some(last.active) else LastSet(steps[..|steps| - 1], user)
  }

  /** Users are as last set; every wallet was attached with its address, and is active. */
  ghost predicate DirectoryIs(d: Directory, done: seq<Step>)
  {
    && (forall user :: UserActive(d, user) <==> LastSet(done, user) == Some(true))
    && (forall k :: k in d.wallets ==> WalletActive(d, k) && AttachWallet(k, d.wallets[k].address) in done)
  }

  lemma StepKeepsDirectory(w: State, s: Step, done: seq<Step>)
    requires DirectoryIs(w.directory, done)
    ensures DirectoryIs(Apply(w, s).directory, done + [s])
  {
    assert (done + [s])[..|done|] == done && (done + [s])[|done|] == s;
    if s.Deliver? {
      DeliveryKeepsOutbox(w, s.event);
    }
  }

  lemma {:induction false} RunKeepsDirectory(w: State, steps: seq<Step>, done: seq<Step>)
    requires DirectoryIs(w.directory, done)
    ensures DirectoryIs(Run(w, steps).directory, done + steps)
    decreases |steps|
  {
    if steps == [] {
      assert done + steps == done;
    } else {
      StepKeepsDirectory(w, steps[0], done);
      RunKeepsDirectory(Apply(w, steps[0]), steps[1..], done + [steps[0]]);
      assert done + [steps[0]] + steps[1..] == done + steps;
    }
  }

  /** Over every run: a user is active iff last set so, and a wallet exists, active, only if it was attached. */
  lemma DirectoryFollowsSteps(steps: seq<Step>)
    ensures DirectoryIs(Run(EMPTY, steps).directory, steps)
  {
    RunKeepsDirectory(EMPTY, steps, []);
    assert [] + steps == steps;
  }

  /** Attaching takes effect iff neither the wallet nor the address is taken; nobody else's wallet changes. */
  lemma AttachTakesIff(w: State, k: WalletKey, address: Addr)
    requires WalletsOwned(w.directory)
    ensures var d, d1 := w.directory, Attach(w, k, address).directory;
            && (d1 != d <==> k !in d.wallets && address !in d.owners)
            && (d1 != d ==> WalletActive(d1, k) && d1.wallets[k].address == address && d1.owners[address] == k.user)
            && d1.users == d.users
            && (forall o :: o in d.wallets ==> o in d1.wallets && d1.wallets[o] == d.wallets[o])
            && (forall o :: o in d1.wallets ==> o in d.wallets || o == k)
            && (forall x :: x in d.owners ==> x in d1.owners && d1.owners[x] == d.owners[x])
  {
    if k !in w.directory.wallets && address !in w.directory.owners {
      assert k in Attach(w, k, address).directory.wallets;
    }
  }

  // ---- a transfer shows progress only when there was some ----

  /** PROCESSING only after its request was published, BROADCAST only after its broadcast was reported. */
  ghost predicate Progressing(w: State, published: set<TransferId>)
  {
    forall t :: t in w.transfers ==>
      && (t.status.Processing? ==> t.id in published)
      && (t.status.Broadcast? ==> BroadcastedId(t.id) in w.processed)
  }

  function PublishedBy(s: Step): set<TransferId> { if s.Progress? then s.published else {} }

  function PublishedIn(steps: seq<Step>, before: set<TransferId>): set<TransferId>
    decreases |steps|
  {
    if steps == [] then before else PublishedIn(steps[1..], before + PublishedBy(steps[0]))
  }

  lemma HandleProgress(w: State, e: Event, published: set<TransferId>)
    requires Progressing(w, published) && Handle(w, e).Done? && Id(e) in w.processed
    ensures Progressing(Handle(w, e).state, published)
  {
    var w1 := Handle(w, e).state;
    forall t | t in w1.transfers
      ensures t.status.Processing? ==> t.id in published
      ensures t.status.Broadcast? ==> BroadcastedId(t.id) in w1.processed
    {
      var i :| 0 <= i < |w1.transfers| && w1.transfers[i] == t;
      assert w.transfers[i] in w.transfers;
    }
  }

  lemma StepProgress(w: State, s: Step, published: set<TransferId>)
    requires Progressing(w, published)
    ensures Progressing(Apply(w, s), published + PublishedBy(s))
  {
    match s
    case Deliver(e, crashed) =>
      var marked := w.(processed := w.processed + {Id(e)});
      if Handle(marked, e).Done? {
        HandleProgress(marked, e, published);
      }
    case Progress(now) =>
      forall t | t in Apply(w, s).transfers
        ensures (t.status.Processing? ==> t.id in published + now)
             && (t.status.Broadcast? ==> BroadcastedId(t.id) in w.processed)
      {
        var i :| 0 <= i < |w.transfers| && Apply(w, s).transfers[i] == t;
        assert w.transfers[i] in w.transfers;
      }
    case _ =>
  }

  lemma {:induction false} RunProgress(w: State, steps: seq<Step>, published: set<TransferId>)
    requires Progressing(w, published)
    ensures Progressing(Run(w, steps), PublishedIn(steps, published))
    decreases |steps|
  {
    if steps != [] {
      StepProgress(w, steps[0], published);
      RunProgress(Apply(w, steps[0]), steps[1..], published + PublishedBy(steps[0]));
    }
  }

  /** Over every run: no transfer shows progress nobody reported. */
  lemma ProgressIsReported(steps: seq<Step>, t: Transfer)
    requires t in Run(EMPTY, steps).transfers
    ensures t.status.Processing? ==> t.id in PublishedIn(steps, {})
    ensures t.status.Broadcast? ==> BroadcastedId(t.id) in Run(EMPTY, steps).processed
  {
    RunProgress(EMPTY, steps, {});
  }
}
