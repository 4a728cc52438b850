/** The posting engine of the wallet service: append-only entries, derived balances, holds. */
module Ledger {
  import opened Events
  import opened Sums

  datatype EntryKind = DepositCredit | TransferDebit | TransferCredit | Reversal

  /** `(reference_type, reference_id)`. A deposit reference carries the block hash. */
  datatype Reference = TransferReference(transfer: TransferId) | DepositReference(dep: DepositId, block: Hash)

  datatype Posting = Posting(user: UserId, amount: int, kind: EntryKind, ref: Reference)

  datatype Entry = Entry(user: UserId, asset: Asset, amount: int, kind: EntryKind, ref: Reference)

  /** `uq_ledger_idempotency`. The asset is not part of the key. */
  datatype Key = Key(user: UserId, kind: EntryKind, ref: Reference)

  datatype Account = Account(user: UserId, asset: Asset)

  datatype Balance = Balance(posted: int, reserved: int)

  datatype Books = Books(entries: seq<Entry>, balances: map<Account, Balance>)

  datatype PostResult = Refused | Posted(books: Books, written: nat)

  function KeyOf(e: Entry): Key { Key(e.user, e.kind, e.ref) }

  function AccountOf(e: Entry): Account { Account(e.user, e.asset) }

  function EntryFor(asset: Asset, p: Posting): Entry { Entry(p.user, asset, p.amount, p.kind, p.ref) }

  predicate HasKey(entries: seq<Entry>, k: Key)
  {
    exists e :: e in entries && KeyOf(e) == k
  }

  /** The two CHECK constraints of `balances`. */
  predicate Solvent(b: Balance) { 0 <= b.reserved <= b.posted }

  // ---- ensure_balance, post_entries ----

  function WithBalance(b: Books, a: Account): Books
  {
    if a in b.balances then b else b.(balances := b.balances[a := Balance(0, 0)])
  }

  function PostOne(b: Books, asset: Asset, p: Posting): PostResult
  {
    var a := Account(p.user, asset);
    var b1 := WithBalance(b, a);
    if HasKey(b1.entries, Key(p.user, p.kind, p.ref)) then
      Posted(b1, 0)
    else
      var moved := b1.balances[a].(posted := b1.balances[a].posted + p.amount);
      if p.amount == 0 || !Solvent(moved) then Refused
      else Posted(Books(b1.entries + [EntryFor(asset, p)], b1.balances[a := moved]), 1)
  }

  function PostAll(b: Books, asset: Asset, ps: seq<Posting>): PostResult
    decreases |ps|
  {
    if ps == [] then Posted(b, 0)
    else
      match PostOne(b, asset, ps[0])
      case Refused => Refused
      case Posted(b1, n) => AddWritten(PostAll(b1, asset, ps[1..]), n)
  }

  function AddWritten(r: PostResult, n: nat): PostResult
  {
    match r
    case Refused => Refused
    case Posted(b, m) => Posted(b, n + m)
  }

  /** `sorted(postings, key=user_id)`: a stable sort. */
  function SortByUser(ps: seq<Posting>): seq<Posting>
  {
    if ps == [] then [] else InsertByUser(SortByUser(ps[..|ps| - 1]), ps[|ps| - 1])
  }

  function InsertByUser(ps: seq<Posting>, p: Posting): seq<Posting>
  {
    if ps == [] then [p]
    else if ps[|ps| - 1].user <= p.user then ps + [p]
    else InsertByUser(ps[..|ps| - 1], p) + [ps[|ps| - 1]]
  }

  predicate AscendingUsers(ps: seq<Posting>)
  {
    forall i, j :: 0 <= i < j < |ps| ==> ps[i].user <= ps[j].user
  }

  lemma {:induction false} InsertMembers(ps: seq<Posting>, p: Posting)
    ensures forall x :: x in InsertByUser(ps, p) ==> x in ps || x == p
  {
    if ps != [] && ps[|ps| - 1].user > p.user {
      InsertMembers(ps[..|ps| - 1], p);
    }
  }

  lemma {:induction false} InsertAscends(ps: seq<Posting>, p: Posting)
    requires AscendingUsers(ps)
    ensures AscendingUsers(InsertByUser(ps, p))
  {
    if ps != [] && ps[|ps| - 1].user > p.user {
      var front, last := ps[..|ps| - 1], ps[|ps| - 1];
      InsertAscends(front, p);
      InsertMembers(front, p);
      AscendsWith(InsertByUser(front, p), last);
    }
  }

  lemma AscendsWith(ps: seq<Posting>, last: Posting)
    requires AscendingUsers(ps) && forall x :: x in ps ==> x.user <= last.user
    ensures AscendingUsers(ps + [last])
  {
  }

  lemma {:induction false} InsertKeeps(ps: seq<Posting>, p: Posting)
    ensures multiset(InsertByUser(ps, p)) == multiset(ps) + multiset{p}
  {
    if ps != [] {
      var front, last := ps[..|ps| - 1], ps[|ps| - 1];
      assert ps == front + [last];
      if last.user > p.user {
        InsertKeeps(front, p);
      }
    }
  }

  /** The sort orders by user and neither drops nor invents a posting. */
  lemma {:induction false} SortAscends(ps: seq<Posting>)
    ensures AscendingUsers(SortByUser(ps))
    ensures multiset(SortByUser(ps)) == multiset(ps)
  {
    if ps != [] {
      assert ps == ps[..|ps| - 1] + [ps[|ps| - 1]];
      SortAscends(ps[..|ps| - 1]);
      InsertAscends(SortByUser(ps[..|ps| - 1]), ps[|ps| - 1]);
      InsertKeeps(SortByUser(ps[..|ps| - 1]), ps[|ps| - 1]);
    }
  }

  function PostEntries(b: Books, asset: Asset, ps: seq<Posting>): PostResult
  {
    PostAll(b, asset, SortByUser(ps))
  }

  // ---- place_hold, release_hold ----

  /** The conditional update of `place_hold`; `None` when no row satisfies its WHERE clause. */
  function PlaceHold(b: Books, a: Account, amount: int): Option<Books>
  {
    if a in b.balances && b.balances[a].posted - b.balances[a].reserved >= amount
    then Some(b.(balances := b.balances[a := b.balances[a].(reserved := b.balances[a].reserved + amount)]))
    else None
  }

  /** `None` when the new row violates a CHECK constraint; a missing row is not updated. */
  function ReleaseHold(b: Books, a: Account, amount: int): Option<Books>
  {
    if a !in b.balances then Some(b)
    else
      var r := b.balances[a].(reserved := b.balances[a].reserved - amount);
      if Solvent(r) then Some(b.(balances := b.balances[a := r])) else None
  }

  // ---- the ledger invariant ----

  function OnAccount(a: Account): Entry -> int
  {
    (e: Entry) => if AccountOf(e) == a then e.amount else 0
  }

  ghost predicate UniqueKeys(entries: seq<Entry>)
  {
    forall i, j :: 0 <= i < j < |entries| ==> KeyOf(entries[i]) != KeyOf(entries[j])
  }

  /** Snapshots equal the sums of their entries, no entry lacks a snapshot, no account is overdrawn. */
  ghost predicate BooksOk(b: Books)
  {
    && (forall e :: e in b.entries ==> AccountOf(e) in b.balances)
    && (forall a :: a in b.balances ==> b.balances[a].posted == Sum(b.entries, OnAccount(a)))
    && (forall a :: a in b.balances ==> Solvent(b.balances[a]))
    && UniqueKeys(b.entries)
  }

  lemma WithBalanceKeeps(b: Books, a: Account)
    requires BooksOk(b)
    ensures BooksOk(WithBalance(b, a))
  {
    if a !in b.balances {
      SumOfZeros(b.entries, OnAccount(a));
    }
  }

  /** One posting keeps the invariant, whichever branch it takes. */
  lemma PostOneKeeps(b: Books, asset: Asset, p: Posting)
    requires BooksOk(b)
    ensures var r := PostOne(b, asset, p); r.Posted? ==> BooksOk(r.books)
  {
    var r := PostOne(b, asset, p);
    var a := Account(p.user, asset);
    var b1 := WithBalance(b, a);
    WithBalanceKeeps(b, a);
    if r.Posted? && r.written == 1 {
      AppendKeeps(b1, EntryFor(asset, p));
    }
  }

  function WithEntry(b: Books, e: Entry): Books
    requires AccountOf(e) in b.balances
  {
    var a := AccountOf(e);
    Books(b.entries + [e], b.balances[a := b.balances[a].(posted := b.balances[a].posted + e.amount)])
  }

  /** A new entry together with the move of its snapshot. */
  lemma AppendKeeps(b: Books, e: Entry)
    requires BooksOk(b) && AccountOf(e) in b.balances && !HasKey(b.entries, KeyOf(e))
    requires Solvent(WithEntry(b, e).balances[AccountOf(e)])
    ensures BooksOk(WithEntry(b, e))
  {
    AppendUnique(b.entries, e);
    forall x | x in b.balances ensures WithEntry(b, e).balances[x].posted == Sum(b.entries + [e], OnAccount(x)) {
      SumAppend(b.entries, e, OnAccount(x));
    }
  }

  lemma AppendUnique(entries: seq<Entry>, e: Entry)
    requires UniqueKeys(entries) && !HasKey(entries, KeyOf(e))
    ensures UniqueKeys(entries + [e])
  {
    forall i | 0 <= i < |entries| ensures KeyOf(entries[i]) != KeyOf(e) {
      assert entries[i] in entries;
    }
  }

  lemma {:induction false} PostAllKeeps(b: Books, asset: Asset, ps: seq<Posting>)
    requires BooksOk(b)
    ensures var r := PostAll(b, asset, ps); r.Posted? ==> BooksOk(r.books)
    decreases |ps|
  {
    if ps != [] {
      PostOneKeeps(b, asset, ps[0]);
      var r := PostOne(b, asset, ps[0]);
      if r.Posted? {
        PostAllKeeps(r.books, asset, ps[1..]);
      }
    }
  }

  // ---- the rows of one reference ----

  function Rows(entries: seq<Entry>, ref: Reference): seq<Entry>
  {
    if entries == [] then []
    else
      var last := entries[|entries| - 1];
      Rows(entries[..|entries| - 1], ref) + (if last.ref == ref then [last] else [])
  }

  lemma RowsAppend(entries: seq<Entry>, e: Entry, ref: Reference)
    ensures Rows(entries + [e], ref) == Rows(entries, ref) + (if e.ref == ref then [e] else [])
  {
    assert (entries + [e])[..|entries|] == entries;
  }

  /** The rows of a reference are exactly the entries that carry it. */
  lemma {:induction false} RowsAre(entries: seq<Entry>, ref: Reference)
    ensures forall e :: e in Rows(entries, ref) <==> e in entries && e.ref == ref
  {
    if entries != [] {
      var last := |entries| - 1;
      RowsAre(entries[..last], ref);
      assert entries == entries[..last] + [entries[last]];
    }
  }

  /** What an account owes to one reference is the sum over that reference's rows. */
  function OnReference(a: Account, ref: Reference): Entry -> int
  {
    (e: Entry) => if AccountOf(e) == a && e.ref == ref then e.amount else 0
  }

  lemma {:induction false} RowsSum(entries: seq<Entry>, ref: Reference, a: Account)
    ensures Sum(entries, OnReference(a, ref)) == Sum(Rows(entries, ref), OnAccount(a))
  {
    if entries != [] {
      var last := |entries| - 1;
      RowsSum(entries[..last], ref, a);
      if entries[last].ref == ref {
        SumAppend(Rows(entries[..last], ref), entries[last], OnAccount(a));
      } else {
        assert Rows(entries, ref) == Rows(entries[..last], ref);
      }
    }
  }

  // ---- two postings with distinct users: the shape every transfer writes ----

  function OrderedPair(p: Posting, q: Posting): seq<Posting>
  {
    if p.user <= q.user then [p, q] else [q, p]
  }

  lemma SortPair(p: Posting, q: Posting)
    ensures SortByUser([p, q]) == OrderedPair(p, q)
  {
    assert [p, q][..1] == [p];
    SortSingle(p);
    InsertIntoSingle(p, q);
  }

  lemma SortSingle(p: Posting)
    ensures SortByUser([p]) == [p]
  {
    assert [p][..0] == [];
  }

  lemma InsertIntoSingle(p: Posting, q: Posting)
    ensures InsertByUser([p], q) == OrderedPair(p, q)
  {
    assert [p][..0] == [];
  }

  function PairEntries(asset: Asset, p: Posting, q: Posting): seq<Entry>
  {
    if p.user <= q.user then [EntryFor(asset, p), EntryFor(asset, q)] else [EntryFor(asset, q), EntryFor(asset, p)]
  }

  predicate CanMove(b: Books, a: Account, amount: int)
  {
    a in b.balances && amount != 0 && Solvent(b.balances[a].(posted := b.balances[a].posted + amount))
  }

  function Moved(b: Books, asset: Asset, p: Posting, q: Posting): map<Account, Balance>
    requires Account(p.user, asset) in b.balances && Account(q.user, asset) in b.balances
  {
    var x, y := Account(p.user, asset), Account(q.user, asset);
    b.balances[x := b.balances[x].(posted := b.balances[x].posted + p.amount)]
              [y := b.balances[y].(posted := b.balances[y].posted + q.amount)]
  }

  /** Two new postings for distinct users land together, in user order, or are refused together. */
  lemma PostPair(b: Books, asset: Asset, p: Posting, q: Posting)
    requires p.user != q.user
    requires Account(p.user, asset) in b.balances && Account(q.user, asset) in b.balances
    requires !HasKey(b.entries, Key(p.user, p.kind, p.ref)) && !HasKey(b.entries, Key(q.user, q.kind, q.ref))
    ensures PostEntries(b, asset, [p, q]) ==
            if CanMove(b, Account(p.user, asset), p.amount) && CanMove(b, Account(q.user, asset), q.amount)
            then Posted(Books(b.entries + PairEntries(asset, p, q), Moved(b, asset, p, q)), 2)
            else Refused
  {
    SortPair(p, q);
    if p.user <= q.user {
      PostTwo(b, asset, p, q);
    } else {
      PostTwo(b, asset, q, p);
      assert Moved(b, asset, p, q) == Moved(b, asset, q, p);
    }
  }

  lemma PostNew(b: Books, asset: Asset, p: Posting)
    requires Account(p.user, asset) in b.balances
    requires !HasKey(b.entries, Key(p.user, p.kind, p.ref))
    ensures var a := Account(p.user, asset);
            PostOne(b, asset, p) ==
            if CanMove(b, a, p.amount)
            then Posted(Books(b.entries + [EntryFor(asset, p)],
                              b.balances[a := b.balances[a].(posted := b.balances[a].posted + p.amount)]), 1)
            else Refused
  {
  }

  lemma PostSingle(b: Books, asset: Asset, p: Posting)
    ensures PostAll(b, asset, [p]) == PostOne(b, asset, p)
    ensures PostEntries(b, asset, [p]) == PostOne(b, asset, p)
  {
    assert [p][1..] == [];
    SortSingle(p);
  }

  lemma PostTwo(b: Books, asset: Asset, p: Posting, q: Posting)
    requires p.user != q.user
    requires Account(p.user, asset) in b.balances && Account(q.user, asset) in b.balances
    requires !HasKey(b.entries, Key(p.user, p.kind, p.ref)) && !HasKey(b.entries, Key(q.user, q.kind, q.ref))
    ensures PostAll(b, asset, [p, q]) ==
            if CanMove(b, Account(p.user, asset), p.amount) && CanMove(b, Account(q.user, asset), q.amount)
            then Posted(Books(b.entries + [EntryFor(asset, p), EntryFor(asset, q)], Moved(b, asset, p, q)), 2)
            else Refused
  {
    PostNew(b, asset, p);
    var r := PostOne(b, asset, p);
    assert [p, q][1..] == [q];
    if r.Posted? {
      var e := EntryFor(asset, p);
      assert !HasKey(b.entries + [e], Key(q.user, q.kind, q.ref)) by {
        assert KeyOf(e) != Key(q.user, q.kind, q.ref);
      }
      PostNew(r.books, asset, q);
      PostSingle(r.books, asset, q);
      assert b.entries + [e] + [EntryFor(asset, q)] == b.entries + [e, EntryFor(asset, q)];
    }
  }

  // ---- what a hold means ----

  function Available(b: Books, a: Account): int
  {
    if a in b.balances then b.balances[a].posted - b.balances[a].reserved else 0
  }

  /**
    * A positive hold is granted iff it is available; it takes exactly that, from that account only, and keeps the
    * books.
    */
  lemma HoldKeepsBooks(b: Books, a: Account, amount: int)
    requires BooksOk(b) && amount > 0
    ensures PlaceHold(b, a, amount).Some? <==> Available(b, a) >= amount
    ensures PlaceHold(b, a, amount).Some? ==>
              var b1 := PlaceHold(b, a, amount).value;
              && BooksOk(b1) && b1.entries == b.entries && b1.balances.Keys == b.balances.Keys
              && Available(b1, a) == Available(b, a) - amount
              && forall x :: x != a ==> Available(b1, x) == Available(b, x)
  {
    if PlaceHold(b, a, amount).Some? {
      SameEntriesKeepBooks(b, PlaceHold(b, a, amount).value);
    }
  }

  lemma SameEntriesKeepBooks(b: Books, b1: Books)
    requires BooksOk(b) && b1.entries == b.entries && b1.balances.Keys == b.balances.Keys
    requires forall x :: x in b.balances ==> b1.balances[x].posted == b.balances[x].posted && Solvent(b1.balances[x])
    ensures BooksOk(b1)
  {
  }

  /** Releasing what was held restores the books exactly. */
  lemma ReleaseUndoesHold(b: Books, a: Account, amount: int)
    requires BooksOk(b) && PlaceHold(b, a, amount).Some?
    ensures ReleaseHold(PlaceHold(b, a, amount).value, a, amount) == Some(b)
  {
    var b1 := PlaceHold(b, a, amount).value;
    assert b1.balances[a := b.balances[a]] == b.balances;
  }

  /** A positive release is refused iff more is released than is reserved; otherwise the books stay in order. */
  lemma ReleaseRefusedIff(b: Books, a: Account, amount: int)
    requires BooksOk(b) && amount > 0
    ensures ReleaseHold(b, a, amount).None? <==> a in b.balances && amount > b.balances[a].reserved
    ensures ReleaseHold(b, a, amount).Some? ==> BooksOk(ReleaseHold(b, a, amount).value)
  {
    if ReleaseHold(b, a, amount).Some? {
      SameEntriesKeepBooks(b, ReleaseHold(b, a, amount).value);
    }
  }

  // ---- equal hold requests on one account ----

  /** The outcome of `n` serialised hold requests of `x`: the books and how many were accepted. */
  function HoldMany(b: Books, a: Account, x: int, n: nat): (Books, nat)
  {
    if n == 0 then (b, 0)
    else
      var (b1, k) := HoldMany(b, a, x, n - 1);
      match PlaceHold(b1, a, x)
      case Some(b2) => (b2, k + 1)
      case None => (b1, k)
  }

  predicate HeldSoFar(b: Books, a: Account, x: int, b1: Books, k: nat)
    requires a in b.balances
  {
    && b1.entries == b.entries
    && b1.balances == b.balances[a := Balance(b.balances[a].posted, b.balances[a].reserved + k * x)]
  }

  /** Exactly `min(n, available / x)` of `n` equal requests succeed. */
  lemma {:induction false} HoldsAcceptedExactly(b: Books, a: Account, x: int, n: nat)
    requires a in b.balances && Solvent(b.balances[a]) && x > 0
    ensures var available := b.balances[a].posted - b.balances[a].reserved;
            var (b1, k) := HoldMany(b, a, x, n);
            && k == (if n <= available / x then n else available / x)
            && HeldSoFar(b, a, x, b1, k)
            && Solvent(b1.balances[a])
  {
    var available := b.balances[a].posted - b.balances[a].reserved;
    QuotientSign(available, x);
    if n == 0 {
      assert b.balances[a := b.balances[a]] == b.balances;
    } else {
      HoldsAcceptedExactly(b, a, x, n - 1);
      var (b1, k) := HoldMany(b, a, x, n - 1);
      OneMoreHold(b, a, x, b1, k);
      UnitFits(available, x, k);
    }
  }

  lemma OneMoreHold(b: Books, a: Account, x: int, b1: Books, k: nat)
    requires a in b.balances && HeldSoFar(b, a, x, b1, k)
    ensures match PlaceHold(b1, a, x)
            case Some(b2) => b.balances[a].posted - b.balances[a].reserved - k * x >= x && HeldSoFar(b, a, x, b2, k + 1)
            case None => b.balances[a].posted - b.balances[a].reserved - k * x < x
  {
    assert (k + 1) * x == k * x + x;
  }

  lemma QuotientSign(available: int, x: int)
    requires x > 0 && available >= 0
    ensures available / x >= 0
  {
  }

  /** One more unit of `x` fits after `k` of them exactly when `k` is below the quotient. */
  lemma UnitFits(available: int, x: int, k: nat)
    requires x > 0 && available >= 0
    ensures available - k * x >= x <==> k < available / x
  {
    var q, r := available / x, available % x;
    assert available == q * x + r;
    MultipleOrder(k, q, x);
    assert available - k * x == (q - k) * x + r;
  }

  lemma MultipleOrder(k: int, q: int, x: int)
    requires x > 0
    ensures k < q ==> (q - k) * x >= x
    ensures k >= q ==> (q - k) * x <= 0
  {
    if k < q {
      assert (q - k - 1) * x >= 0;
    } else {
      assert (k - q) * x >= 0;
    }
  }
}
