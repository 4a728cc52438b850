/**
  * Row locks on the balances of one asset. A transaction locks users in a fixed order and keeps its
  * locks until it ends; any number of transactions run concurrently.
  */
module Locking {
  import opened Events
  import opened Ledger
  import opened Wallet

  /** `want`: the users it locks, in order (again is free); `got`: how many of them it has. */
  datatype Tx = Tx(want: seq<UserId>, got: nat, done: bool)

  datatype Step = Lock(tx: nat) | Finish(tx: nat)

  ghost predicate Holds(t: Tx, u: UserId)
  {
    !t.done && exists k :: 0 <= k < t.got && k < |t.want| && t.want[k] == u
  }

  ghost predicate Active(t: Tx) { !t.done && t.got < |t.want| }

  /** `i` waits for a row that `j` has locked. */
  ghost predicate WaitsFor(s: seq<Tx>, i: nat, j: nat)
    requires i < |s| && j < |s|
  {
    i != j && Active(s[i]) && Holds(s[j], s[i].want[s[i].got])
  }

  ghost predicate Enabled(s: seq<Tx>, step: Step)
  {
    match step
    case Lock(i) => i < |s| && Active(s[i]) && forall j :: 0 <= j < |s| ==> !WaitsFor(s, i, j)
    case Finish(i) => i < |s| && !s[i].done && s[i].got == |s[i].want|
  }

  ghost function Next(s: seq<Tx>, step: Step): seq<Tx>
    requires Enabled(s, step)
  {
    match step
    case Lock(i) => s[i := s[i].(got := s[i].got + 1)]
    case Finish(i) => s[i := s[i].(done := true)]
  }

  ghost predicate ValidRun(s: seq<Tx>, steps: seq<Step>)
    decreases |steps|
  {
    steps == [] || (Enabled(s, steps[0]) && ValidRun(Next(s, steps[0]), steps[1..]))
  }

  ghost function Run(s: seq<Tx>, steps: seq<Step>): seq<Tx>
    requires ValidRun(s, steps)
    decreases |steps|
  {
    if steps == [] then s else Run(Next(s, steps[0]), steps[1..])
  }

  // ---- locks are exclusive ----

  ghost predicate Exclusive(s: seq<Tx>)
  {
    && (forall i :: 0 <= i < |s| ==> s[i].got <= |s[i].want|)
    && (forall i, j, u :: 0 <= i < |s| && 0 <= j < |s| && i != j && Holds(s[i], u) ==> !Holds(s[j], u))
  }

  ghost predicate SameWants(s: seq<Tx>, t: seq<Tx>)
  {
    |t| == |s| && forall i :: 0 <= i < |s| ==> t[i].want == s[i].want
  }

  lemma LockedIsFree(s: seq<Tx>, x: nat)
    requires Enabled(s, Lock(x))
    ensures forall i :: 0 <= i < |s| && i != x ==> !Holds(s[i], s[x].want[s[x].got])
  {
    forall i | 0 <= i < |s| && i != x ensures !Holds(s[i], s[x].want[s[x].got]) {
      assert !WaitsFor(s, x, i);
    }
  }

  lemma StepKeeps(s: seq<Tx>, step: Step)
    requires Exclusive(s) && Enabled(s, step)
    ensures Exclusive(Next(s, step)) && SameWants(s, Next(s, step))
  {
    var t := Next(s, step);
    var x := step.tx;
    forall i, u | 0 <= i < |s| && Holds(t[i], u)
      ensures Holds(s[i], u) || (step.Lock? && i == x && u == s[x].want[s[x].got])
    {
    }
    if step.Lock? {
      LockedIsFree(s, x);
    }
    forall i, j, u | 0 <= i < |s| && 0 <= j < |s| && i != j && Holds(t[i], u) ensures !Holds(t[j], u) {
    }
  }

  lemma {:induction false} RunKeeps(s: seq<Tx>, steps: seq<Step>)
    requires Exclusive(s) && ValidRun(s, steps)
    ensures Exclusive(Run(s, steps)) && SameWants(s, Run(s, steps))
    decreases |steps|
  {
    if steps != [] {
      StepKeeps(s, steps[0]);
      RunKeeps(Next(s, steps[0]), steps[1..]);
    }
  }

  // ---- ascending acquisition: no cycle, no deadlock ----

  ghost predicate Ascending(want: seq<UserId>)
  {
    forall i, j :: 0 <= i < j < |want| ==> want[i] <= want[j]
  }

  ghost predicate AllAscending(s: seq<Tx>) { forall i :: 0 <= i < |s| ==> Ascending(s[i].want) }

  /** Along a wait-for edge the awaited user grows. */
  lemma EdgeClimbs(s: seq<Tx>, i: nat, j: nat, k: nat)
    requires Exclusive(s) && AllAscending(s) && i < |s| && j < |s| && k < |s|
    requires WaitsFor(s, i, j) && WaitsFor(s, j, k)
    ensures s[i].want[s[i].got] < s[j].want[s[j].got]
  {
    var u := s[i].want[s[i].got];
    var p :| 0 <= p < s[j].got && p < |s[j].want| && s[j].want[p] == u;
    assert Ascending(s[j].want);
    assert !Holds(s[j], s[j].want[s[j].got]);
  }

  ghost predicate Cycle(s: seq<Tx>, c: seq<nat>)
  {
    && |c| >= 2 && (forall k :: 0 <= k < |c| ==> c[k] < |s|)
    && (forall k :: 0 <= k < |c| - 1 ==> WaitsFor(s, c[k], c[k + 1]))
    && WaitsFor(s, c[|c| - 1], c[0])
  }

  lemma {:induction false} CycleClimbs(s: seq<Tx>, c: seq<nat>, k: nat)
    requires Exclusive(s) && AllAscending(s) && Cycle(s, c) && k < |c|
    ensures Active(s[c[0]]) && Active(s[c[k]])
    ensures s[c[0]].want[s[c[0]].got] <= s[c[k]].want[s[c[k]].got]
  {
    assert WaitsFor(s, c[0], c[1]);
    if k > 0 {
      CycleClimbs(s, c, k - 1);
      assert WaitsFor(s, c[k - 1], c[k]);
      EdgeClimbs(s, c[k - 1], c[k], if k < |c| - 1 then c[k + 1] else c[0]);
    }
  }

  /**
    * Any number of transactions that lock in ascending order: in every reachable state the wait-for
    * graph has no cycle.
    */
  lemma NoCycle(start: seq<Tx>, steps: seq<Step>, c: seq<nat>)
    requires Exclusive(start) && AllAscending(start) && ValidRun(start, steps)
    ensures !Cycle(Run(start, steps), c)
  {
    RunKeeps(start, steps);
    var s := Run(start, steps);
    if Cycle(s, c) {
      CycleClimbs(s, c, |c| - 1);
      EdgeClimbs(s, c[|c| - 1], c[0], c[1]);
    }
  }

  ghost predicate Deadlocked(s: seq<Tx>)
  {
    && (exists i :: 0 <= i < |s| && !s[i].done)
    && (forall i :: 0 <= i < |s| ==> !Enabled(s, Lock(i)) && !Enabled(s, Finish(i)))
  }

  /** In a deadlock every unfinished transaction waits for another unfinished one. */
  lemma DeadlockedWaits(s: seq<Tx>, i: nat) returns (j: nat)
    requires Exclusive(s) && Deadlocked(s) && i < |s| && !s[i].done
    ensures j < |s| && WaitsFor(s, i, j) && !s[j].done
  {
    assert !Enabled(s, Finish(i)) && !Enabled(s, Lock(i));
    j :| 0 <= j < |s| && WaitsFor(s, i, j);
  }

  /** Among the first `n` transactions, an active one that awaits the greatest user. */
  lemma {:induction false} GreatestWaiter(s: seq<Tx>, n: nat, i: nat) returns (m: nat)
    requires i < n <= |s| && Active(s[i])
    ensures m < n && Active(s[m])
    ensures forall k :: 0 <= k < n && Active(s[k]) ==> s[k].want[s[k].got] <= s[m].want[s[m].got]
  {
    if n == 1 {
      m := 0;
    } else if i == n - 1 {
      m := i;
      if k :| 0 <= k < n - 1 && Active(s[k]) {
        var p := GreatestWaiter(s, n - 1, k);
        if s[p].want[s[p].got] > s[i].want[s[i].got] {
          m := p;
        }
      }
    } else {
      m := GreatestWaiter(s, n - 1, i);
      if Active(s[n - 1]) && s[n - 1].want[s[n - 1].got] > s[m].want[s[m].got] {
        m := n - 1;
      }
    }
  }

  /** Ascending transactions never deadlock: whatever has happened, somebody can go on. */
  lemma NoDeadlock(start: seq<Tx>, steps: seq<Step>)
    requires Exclusive(start) && AllAscending(start) && ValidRun(start, steps)
    ensures !Deadlocked(Run(start, steps))
  {
    RunKeeps(start, steps);
    var s := Run(start, steps);
    if Deadlocked(s) {
      var i :| 0 <= i < |s| && !s[i].done;
      var w := DeadlockedWaits(s, i);
      var m := GreatestWaiter(s, |s|, i);
      var j := DeadlockedWaits(s, m);
      var k := DeadlockedWaits(s, j);
      EdgeClimbs(s, m, j, k);
    }
  }

  // ---- the sequences of the code ----

  function Users(ps: seq<Posting>): seq<UserId> { seq(|ps|, i requires 0 <= i < |ps| => ps[i].user) }

  /** The locks `post_entries` takes. */
  function PostingLocks(ps: seq<Posting>): seq<UserId> { Users(SortByUser(ps)) }

  /** Whatever the postings, `post_entries` locks in ascending order. */
  lemma PostingLocksAscend(ps: seq<Posting>)
    ensures Ascending(PostingLocks(ps))
  {
    SortAscends(ps);
  }

  /** `settle_transfer` updates the sender's row in `release_hold` before `post_entries` sorts. */
  function SettleLocks(t: Transfer): seq<UserId> { [t.req.sender] + PostingLocks([Debit(t), Credit(t)]) }

  lemma SettleLocksAre(t: Transfer)
    ensures SettleLocks(t) == if t.req.sender <= t.req.recipient then [t.req.sender, t.req.sender, t.req.recipient]
                              else [t.req.sender, t.req.recipient, t.req.sender]
  {
    SortPair(Debit(t), Credit(t));
    var ps := OrderedPair(Debit(t), Credit(t));
    assert Users(ps) == [ps[0].user, ps[1].user];
  }

  /** Settlement locks in ascending order exactly when money flows to a greater user id. */
  lemma SettleAscendsIff(t: Transfer)
    requires t.req.sender != t.req.recipient
    ensures Ascending(SettleLocks(t)) <==> t.req.sender < t.req.recipient
  {
    SettleLocksAre(t);
    var w := SettleLocks(t);
    if t.req.sender > t.req.recipient {
      assert w[0] > w[1];
    }
  }

  // ---- transactions that lock one row and then another ----

  /** The locks taken: `first` to begin with, `second` later, and no other row. */
  datatype Pair = Pair(first: UserId, second: UserId)

  ghost predicate Takes(want: seq<UserId>, p: Pair)
  {
    && p.first != p.second && want != [] && want[0] == p.first && p.second in want
    && (forall u :: u in want ==> u == p.first || u == p.second)
  }

  /** Settlement: the sender's row, then the recipient's, whichever id is smaller. */
  function SettlePair(t: Transfer): Pair { Pair(t.req.sender, t.req.recipient) }

  lemma SettleTakes(t: Transfer)
    requires t.req.sender != t.req.recipient
    ensures Takes(SettleLocks(t), SettlePair(t))
  {
    SettleLocksAre(t);
    var w := SettleLocks(t);
    assert w[1] == t.req.recipient || w[2] == t.req.recipient;
  }

  /** Reversal of a settled transfer: `post_entries` alone, so the smaller id first. */
  function ReversalLocks(t: Transfer): seq<UserId> { PostingLocks([Refund(t), Clawback(t)]) }

  function ReversalPair(t: Transfer): Pair
  {
    if t.req.sender < t.req.recipient then Pair(t.req.sender, t.req.recipient) else Pair(t.req.recipient, t.req.sender)
  }

  lemma ReversalTakes(t: Transfer)
    requires t.req.sender != t.req.recipient
    ensures Takes(ReversalLocks(t), ReversalPair(t))
  {
    SortPair(Refund(t), Clawback(t));
    var ps := OrderedPair(Refund(t), Clawback(t));
    assert Users(ps) == [ps[0].user, ps[1].user];
    assert Users(ps)[1] == ReversalPair(t).second;
  }

  /** One that waits while it holds something holds its first row and waits for its second. */
  lemma StuckTaker(x: Tx, p: Pair)
    requires Takes(x.want, p) && Active(x) && x.got >= 1 && !Holds(x, x.want[x.got])
    ensures x.want[x.got] == p.second && Holds(x, p.first)
    ensures forall v :: Holds(x, v) ==> v == p.first
  {
    assert x.want[0] == p.first;
    assert x.want[x.got] in x.want;
    forall v | Holds(x, v) ensures v == p.first {
      var k :| 0 <= k < x.got && k < |x.want| && x.want[k] == v;
      assert x.want[k] in x.want;
    }
  }

  // ---- systems of such transactions ----

  function Fresh(want: seq<UserId>): Tx { Tx(want, 0, false) }

  function Start(wants: seq<seq<UserId>>): seq<Tx>
  {
    seq(|wants|, i requires 0 <= i < |wants| => Fresh(wants[i]))
  }

  ghost predicate AllTake(wants: seq<seq<UserId>>, ps: seq<Pair>)
  {
    |wants| == |ps| && forall i :: 0 <= i < |ps| ==> Takes(wants[i], ps[i])
  }

  /** How often the first row is taken before the second is wanted. */
  function FirstOf(want: seq<UserId>, u: UserId): (n: nat)
    requires u in want
    ensures n < |want| && want[n] == u && forall k :: 0 <= k < n ==> want[k] != u
  {
    if want[0] == u then 0
    else
      assert want == [want[0]] + want[1..];
      FirstOf(want[1..], u) + 1
  }

  /** The transactions in `armed` hold their first row and are about to want their second; the others have not begun. */
  ghost function Armed(wants: seq<seq<UserId>>, ps: seq<Pair>, armed: set<nat>): seq<Tx>
    requires AllTake(wants, ps)
  {
    seq(|wants|, i requires 0 <= i < |wants| =>
      Tx(wants[i], if i in armed then FirstOf(wants[i], ps[i].second) else 0, false))
  }

  /** The same, while transaction `i` has taken its first row `n` times. */
  ghost function Arming(wants: seq<seq<UserId>>, ps: seq<Pair>, armed: set<nat>, i: nat, n: nat): seq<Tx>
    requires AllTake(wants, ps) && i < |wants|
  {
    Armed(wants, ps, armed)[i := Tx(wants[i], n, false)]
  }

  lemma ArmedHolds(wants: seq<seq<UserId>>, ps: seq<Pair>, armed: set<nat>, j: nat)
    requires AllTake(wants, ps) && j < |wants|
    ensures forall v :: Holds(Armed(wants, ps, armed)[j], v) ==> j in armed && v == ps[j].first
    ensures j in armed ==> Holds(Armed(wants, ps, armed)[j], ps[j].first) && Active(Armed(wants, ps, armed)[j])
    ensures j in armed ==> var x := Armed(wants, ps, armed)[j]; x.want[x.got] == ps[j].second
  {
    assert Takes(wants[j], ps[j]);
    var x := Armed(wants, ps, armed)[j];
    forall v | Holds(x, v) ensures v == ps[j].first {
      var k :| 0 <= k < x.got && k < |x.want| && x.want[k] == v;
      assert x.want[k] in x.want;
    }
    if j in armed {
      assert x.want[0] == ps[j].first;
    }
  }

  lemma ArmOnce(wants: seq<seq<UserId>>, ps: seq<Pair>, armed: set<nat>, i: nat, n: nat)
    requires AllTake(wants, ps) && i < |wants| && i !in armed && n < FirstOf(wants[i], ps[i].second)
    requires forall j :: j in armed ==> j < |wants| && ps[j].first != ps[i].first
    ensures Enabled(Arming(wants, ps, armed, i, n), Lock(i))
    ensures Next(Arming(wants, ps, armed, i, n), Lock(i)) == Arming(wants, ps, armed, i, n + 1)
  {
    var s := Arming(wants, ps, armed, i, n);
    assert Takes(wants[i], ps[i]) && wants[i][n] in wants[i];
    forall j | 0 <= j < |s| ensures !WaitsFor(s, i, j) {
      if j != i {
        ArmedHolds(wants, ps, armed, j);
      }
    }
  }

  ghost predicate Reaches(s: seq<Tx>, steps: seq<Step>, t: seq<Tx>) { ValidRun(s, steps) && Run(s, steps) == t }

  lemma {:induction false} RunSnoc(s: seq<Tx>, steps: seq<Step>, step: Step)
    requires ValidRun(s, steps) && Enabled(Run(s, steps), step)
    ensures ValidRun(s, steps + [step]) && Run(s, steps + [step]) == Next(Run(s, steps), step)
    decreases |steps|
  {
    if steps == [] {
      assert [] + [step] == [step] && [step][1..] == [];
      assert ValidRun(Next(s, step), []);
    } else {
      RunSnoc(Next(s, steps[0]), steps[1..], step);
      assert (steps + [step])[1..] == steps[1..] + [step];
    }
  }

  lemma {:induction false} ArmMany(
      wants: seq<seq<UserId>>, ps: seq<Pair>, armed: set<nat>, i: nat, n: nat, steps: seq<Step>)
    returns (more: seq<Step>)
    requires AllTake(wants, ps) && i < |wants| && i !in armed && n <= FirstOf(wants[i], ps[i].second)
    requires forall j :: j in armed ==> j < |wants| && ps[j].first != ps[i].first
    requires Reaches(Start(wants), steps, Armed(wants, ps, armed))
    ensures Reaches(Start(wants), more, Arming(wants, ps, armed, i, n))
  {
    if n == 0 {
      more := steps;
      assert Arming(wants, ps, armed, i, 0) == Armed(wants, ps, armed);
    } else {
      var earlier := ArmMany(wants, ps, armed, i, n - 1, steps);
      ArmOnce(wants, ps, armed, i, n - 1);
      RunSnoc(Start(wants), earlier, Lock(i));
      more := earlier + [Lock(i)];
    }
  }

  lemma ArmNext(
      wants: seq<seq<UserId>>, ps: seq<Pair>, armed: set<nat>, i: nat, steps: seq<Step>) returns (more: seq<Step>)
    requires AllTake(wants, ps) && i < |wants| && i !in armed
    requires forall j :: j in armed ==> j < |wants| && ps[j].first != ps[i].first
    requires Reaches(Start(wants), steps, Armed(wants, ps, armed))
    ensures Reaches(Start(wants), more, Armed(wants, ps, armed + {i}))
  {
    more := ArmMany(wants, ps, armed, i, FirstOf(wants[i], ps[i].second), steps);
    assert Arming(wants, ps, armed, i, FirstOf(wants[i], ps[i].second)) == Armed(wants, ps, armed + {i});
  }

  function Members(c: seq<nat>): set<nat> { set k | k in c }

  /** Transactions with different first rows can all be armed, one after the other. */
  lemma {:induction false} ArmAll(wants: seq<seq<UserId>>, ps: seq<Pair>, c: seq<nat>) returns (steps: seq<Step>)
    requires AllTake(wants, ps) && FirstsDiffer(ps, c)
    ensures Reaches(Start(wants), steps, Armed(wants, ps, Members(c)))
  {
    if c == [] {
      steps := [];
      assert Armed(wants, ps, Members(c)) == Start(wants);
    } else {
      var front, last := c[..|c| - 1], c[|c| - 1];
      assert c == front + [last];
      var earlier := ArmAll(wants, ps, front);
      forall j | j in Members(front) ensures j < |wants| && ps[j].first != ps[last].first {
        var k :| 0 <= k < |front| && front[k] == j;
        assert c[k] == j;
      }
      steps := ArmNext(wants, ps, Members(front), last, earlier);
      assert Members(c) == Members(front) + {last};
    }
  }

  ghost predicate FirstsDiffer(ps: seq<Pair>, c: seq<nat>)
  {
    && (forall k :: 0 <= k < |c| ==> c[k] < |ps|)
    && (forall k, l :: 0 <= k < l < |c| ==> ps[c[k]].first != ps[c[l]].first)
  }

  // ---- n transactions: a cycle of waits iff a cycle of pairs ----

  /** Each one's second row is the next one's first, around the cycle; their first rows differ. */
  ghost predicate PairCycle(ps: seq<Pair>, c: seq<nat>)
  {
    && |c| >= 2 && FirstsDiffer(ps, c)
    && (forall k :: 0 <= k < |c| - 1 ==> ps[c[k]].second == ps[c[k + 1]].first)
    && ps[c[|c| - 1]].second == ps[c[0]].first
  }

  ghost predicate NoRepeats(c: seq<nat>) { forall k, l :: 0 <= k < l < |c| ==> c[k] != c[l] }

  ghost predicate CanCycle(wants: seq<seq<UserId>>)
  {
    exists steps, c :: ValidRun(Start(wants), steps) && NoRepeats(c) && Cycle(Run(Start(wants), steps), c)
  }

  function After(c: seq<nat>, k: nat): nat
    requires k < |c|
  {
    if k < |c| - 1 then c[k + 1] else c[0]
  }

  function Before(c: seq<nat>, k: nat): nat
    requires k < |c|
  {
    if k > 0 then c[k - 1] else c[|c| - 1]
  }

  lemma CycleEdge(s: seq<Tx>, c: seq<nat>, k: nat)
    requires Cycle(s, c) && k < |c|
    ensures WaitsFor(s, c[k], After(c, k)) && WaitsFor(s, Before(c, k), c[k])
  {
    if k > 0 {
      assert WaitsFor(s, c[k - 1], c[k]);
    }
  }

  /** In a cycle of waits everybody holds its first row and waits for its second, which the next one holds. */
  lemma CycleMember(s: seq<Tx>, ps: seq<Pair>, c: seq<nat>, k: nat)
    requires Exclusive(s) && |s| == |ps| && (forall i :: 0 <= i < |s| ==> Takes(s[i].want, ps[i]))
    requires Cycle(s, c) && k < |c|
    ensures Holds(s[c[k]], ps[c[k]].first) && ps[c[k]].second == ps[After(c, k)].first
  {
    CycleStuck(s, ps, c, k);
    var next := if k < |c| - 1 then k + 1 else 0;
    CycleStuck(s, ps, c, next);
    CycleEdge(s, c, k);
  }

  lemma CycleStuck(s: seq<Tx>, ps: seq<Pair>, c: seq<nat>, k: nat)
    requires Exclusive(s) && |s| == |ps| && (forall i :: 0 <= i < |s| ==> Takes(s[i].want, ps[i]))
    requires Cycle(s, c) && k < |c|
    ensures var x := s[c[k]];
            && Active(x) && x.want[x.got] == ps[c[k]].second && Holds(x, ps[c[k]].first)
            && (forall v :: Holds(x, v) ==> v == ps[c[k]].first)
  {
    CycleEdge(s, c, k);
    StuckTaker(s[c[k]], ps[c[k]]);
  }

  lemma CycleMeansPairs(wants: seq<seq<UserId>>, ps: seq<Pair>, steps: seq<Step>, c: seq<nat>)
    requires AllTake(wants, ps) && ValidRun(Start(wants), steps) && NoRepeats(c) && Cycle(Run(Start(wants), steps), c)
    ensures PairCycle(ps, c)
  {
    RunKeeps(Start(wants), steps);
    var s := Run(Start(wants), steps);
    forall i | 0 <= i < |s| ensures Takes(s[i].want, ps[i]) {
      assert s[i].want == Start(wants)[i].want;
    }
    CyclePairs(s, ps, c);
  }

  lemma CyclePairs(s: seq<Tx>, ps: seq<Pair>, c: seq<nat>)
    requires Exclusive(s) && |s| == |ps| && (forall i :: 0 <= i < |s| ==> Takes(s[i].want, ps[i]))
    requires Cycle(s, c) && NoRepeats(c)
    ensures PairCycle(ps, c)
  {
    CycleFirstsDiffer(s, ps, c);
    forall k | 0 <= k < |c| - 1 ensures ps[c[k]].second == ps[c[k + 1]].first {
      CycleMember(s, ps, c, k);
    }
    CycleMember(s, ps, c, |c| - 1);
  }

  lemma CycleFirstsDiffer(s: seq<Tx>, ps: seq<Pair>, c: seq<nat>)
    requires Exclusive(s) && |s| == |ps| && (forall i :: 0 <= i < |s| ==> Takes(s[i].want, ps[i]))
    requires Cycle(s, c) && NoRepeats(c)
    ensures FirstsDiffer(ps, c)
  {
    forall k, l | 0 <= k < l < |c| ensures ps[c[k]].first != ps[c[l]].first {
      CycleStuck(s, ps, c, k);
      CycleStuck(s, ps, c, l);
    }
  }

  lemma ArmedCycle(wants: seq<seq<UserId>>, ps: seq<Pair>, c: seq<nat>)
    requires AllTake(wants, ps) && PairCycle(ps, c)
    ensures Cycle(Armed(wants, ps, Members(c)), c) && NoRepeats(c)
  {
    var s := Armed(wants, ps, Members(c));
    forall k | 0 <= k < |c|
      ensures Active(s[c[k]]) && s[c[k]].want[s[c[k]].got] == ps[c[k]].second && Holds(s[c[k]], ps[c[k]].first)
    {
      assert c[k] in Members(c);
      ArmedHolds(wants, ps, Members(c), c[k]);
    }
  }

  /**
    * Any number of concurrent settlements and reversals, in any mix, can reach a cycle of waits if and only if
    * their (first row, second row) pairs contain a directed cycle.
    */
  lemma CanCycleIff(wants: seq<seq<UserId>>, ps: seq<Pair>)
    requires AllTake(wants, ps)
    ensures CanCycle(wants) <==> exists c :: PairCycle(ps, c)
  {
    if CanCycle(wants) {
      var steps, c :| ValidRun(Start(wants), steps) && NoRepeats(c) && Cycle(Run(Start(wants), steps), c);
      CycleMeansPairs(wants, ps, steps, c);
    }
    if c :| PairCycle(ps, c) {
      var steps := ArmAll(wants, ps, c);
      ArmedCycle(wants, ps, c);
    }
  }

  function AllSettle(ts: seq<Transfer>): seq<seq<UserId>>
  {
    seq(|ts|, i requires 0 <= i < |ts| => SettleLocks(ts[i]))
  }

  function Payments(ts: seq<Transfer>): seq<Pair>
  {
    seq(|ts|, i requires 0 <= i < |ts| => SettlePair(ts[i]))
  }

  /** Concurrent settlements can reach a cycle of waits iff the payments contain a directed cycle. */
  lemma SettlementsCycleIff(ts: seq<Transfer>)
    requires forall t :: t in ts ==> t.req.sender != t.req.recipient
    ensures CanCycle(AllSettle(ts)) <==> exists c :: PairCycle(Payments(ts), c)
  {
    forall i | 0 <= i < |ts| ensures Takes(AllSettle(ts)[i], Payments(ts)[i]) {
      SettleTakes(ts[i]);
    }
    CanCycleIff(AllSettle(ts), Payments(ts));
  }

  // ---- two transactions: exactly when they can deadlock ----

  ghost predicate CanDeadlock(s: seq<Tx>)
  {
    exists steps :: ValidRun(s, steps) && Deadlocked(Run(s, steps))
  }

  /** Two such transactions can deadlock iff each wants first what the other wants second. */
  lemma PairDeadlockIff(want: seq<UserId>, p: Pair, other: seq<UserId>, q: Pair)
    requires Takes(want, p) && Takes(other, q)
    ensures CanDeadlock([Fresh(want), Fresh(other)]) <==> q == Pair(p.second, p.first)
  {
    assert Start([want, other]) == [Fresh(want), Fresh(other)];
    if q == Pair(p.second, p.first) {
      CrossedDeadlock([want, other], [p, q]);
    }
    if CanDeadlock(Start([want, other])) {
      DeadlockCrossed([want, other], [p, q]);
    }
  }

  lemma CrossedDeadlock(wants: seq<seq<UserId>>, ps: seq<Pair>)
    requires |ps| == 2 && AllTake(wants, ps) && ps[1] == Pair(ps[0].second, ps[0].first)
    ensures CanDeadlock(Start(wants))
  {
    assert Takes(wants[0], ps[0]);
    var steps := ArmAll(wants, ps, [0, 1]);
    BothArmed(wants, ps);
  }

  lemma DeadlockCrossed(wants: seq<seq<UserId>>, ps: seq<Pair>)
    requires |ps| == 2 && AllTake(wants, ps) && CanDeadlock(Start(wants))
    ensures ps[1] == Pair(ps[0].second, ps[0].first)
  {
    var steps :| ValidRun(Start(wants), steps) && Deadlocked(Run(Start(wants), steps));
    RunKeeps(Start(wants), steps);
    MutualMeansCrossed(Run(Start(wants), steps), ps[0], ps[1]);
  }

  lemma BothArmed(wants: seq<seq<UserId>>, ps: seq<Pair>)
    requires |ps| == 2 && AllTake(wants, ps) && ps[1] == Pair(ps[0].second, ps[0].first)
    ensures Deadlocked(Armed(wants, ps, Members([0, 1])))
  {
    var s := Armed(wants, ps, Members([0, 1]));
    assert [0, 1][0] == 0 && [0, 1][1] == 1;
    ArmedHolds(wants, ps, Members([0, 1]), 0);
    ArmedHolds(wants, ps, Members([0, 1]), 1);
    assert WaitsFor(s, 0, 1) && WaitsFor(s, 1, 0);
    assert !s[0].done;
  }

  lemma MutualMeansCrossed(s: seq<Tx>, p: Pair, q: Pair)
    requires |s| == 2 && Takes(s[0].want, p) && Takes(s[1].want, q) && Exclusive(s) && Deadlocked(s)
    ensures q == Pair(p.second, p.first)
  {
    var i :| 0 <= i < |s| && !s[i].done;
    var j := DeadlockedWaits(s, i);
    var k := DeadlockedWaits(s, j);
    assert WaitsFor(s, 0, 1) && WaitsFor(s, 1, 0);
    StuckTaker(s[0], p);
    StuckTaker(s[1], q);
  }

  /** Two settlements: iff each pays the other's sender. */
  lemma SettlementsDeadlockIff(t: Transfer, u: Transfer)
    requires t.req.sender != t.req.recipient && u.req.sender != u.req.recipient
    ensures CanDeadlock([Fresh(SettleLocks(t)), Fresh(SettleLocks(u))]) <==>
            u.req.sender == t.req.recipient && u.req.recipient == t.req.sender
  {
    SettleTakes(t);
    SettleTakes(u);
    PairDeadlockIff(SettleLocks(t), SettlePair(t), SettleLocks(u), SettlePair(u));
  }

  /**
    * The settlement of one transfer and the reversal of another: iff they concern the same two users and the
    * settlement pays the smaller id.
    */
  lemma SettleReversalDeadlockIff(t: Transfer, u: Transfer)
    requires t.id != u.id && t.req.sender != t.req.recipient && u.req.sender != u.req.recipient
    ensures CanDeadlock([Fresh(SettleLocks(t)), Fresh(ReversalLocks(u))]) <==>
            && t.req.sender > t.req.recipient
            && {t.req.sender, t.req.recipient} == {u.req.sender, u.req.recipient}
  {
    SettleTakes(t);
    ReversalTakes(u);
    PairDeadlockIff(SettleLocks(t), SettlePair(t), ReversalLocks(u), ReversalPair(u));
    SameTwo(t, u);
  }

  lemma SameTwo(t: Transfer, u: Transfer)
    requires t.req.sender != t.req.recipient && u.req.sender != u.req.recipient
    ensures ReversalPair(u) == Pair(t.req.recipient, t.req.sender) <==>
            && t.req.sender > t.req.recipient
            && {t.req.sender, t.req.recipient} == {u.req.sender, u.req.recipient}
  {
    var mine, theirs := {t.req.sender, t.req.recipient}, {u.req.sender, u.req.recipient};
    if mine == theirs {
      assert t.req.sender in theirs && t.req.recipient in theirs;
    }
  }

  /** Whoever is waited for while waiting holds the first row it wanted. */
  lemma MutualHoldFirst(s: seq<Tx>, i: nat, j: nat, row: UserId)
    requires i < |s| && j < |s| && WaitsFor(s, i, j) && WaitsFor(s, j, i)
    requires s[i].want[0] == row && s[j].want[0] == row
    ensures Holds(s[i], row) && Holds(s[j], row)
  {
  }

  /** Two transactions that lock one common row before all others never deadlock, whatever they lock then. */
  lemma CommonRowFirst(row: UserId, want: seq<UserId>, other: seq<UserId>)
    ensures !CanDeadlock([Fresh([row] + want), Fresh([row] + other)])
  {
    var start := [Fresh([row] + want), Fresh([row] + other)];
    if CanDeadlock(start) {
      var steps :| ValidRun(start, steps) && Deadlocked(Run(start, steps));
      RunKeeps(start, steps);
      var s := Run(start, steps);
      var i :| 0 <= i < |s| && !s[i].done;
      var j := DeadlockedWaits(s, i);
      var k := DeadlockedWaits(s, j);
      MutualHoldFirst(s, i, j, row);
    }
  }

  /** So a transfer's settlement and its own reversal, which lock its row first, never do. */
  lemma OneTransferNeverDeadlocks(row: UserId, t: Transfer)
    ensures !CanDeadlock([Fresh([row] + SettleLocks(t)), Fresh([row] + ReversalLocks(t))])
  {
    CommonRowFirst(row, SettleLocks(t), ReversalLocks(t));
  }
}
