/**
 * The suggestion engine of the settlement calculation: the balance table sorted from the
 * largest debtor to the largest creditor, then a two-pointer loop that lets the debtor at the
 * front pay the creditor at the back as much as both allow, with a cap of n * n rounds.
 */
module SettlementMatcher {
  import opened Money
  import opened ExpenseGroupModel
  import opened BalanceAggregator

  // ---------------------------------------------------------------- sorting

  predicate SortedByBalance(r: seq<BalanceEntry>) {
    forall p, q :: 0 <= p < q < |r| ==> r[p].balance >= r[q].balance
  }

  /** Places `x` after every entry whose balance is at least its own, so ties keep table order. */
  function Insert(sorted: seq<BalanceEntry>, x: BalanceEntry): (r: seq<BalanceEntry>)
    ensures |r| == |sorted| + 1
  {
    if sorted == [] || sorted[0].balance < x.balance then [x] + sorted
    else [sorted[0]] + Insert(sorted[1..], x)
  }

  lemma {:induction false} InsertPermutes(sorted: seq<BalanceEntry>, x: BalanceEntry)
    ensures multiset(Insert(sorted, x)) == multiset(sorted) + multiset{x}
  {
    if !(sorted == [] || sorted[0].balance < x.balance) {
      InsertPermutes(sorted[1..], x);
      assert sorted == [sorted[0]] + sorted[1..];
      assert multiset(Insert(sorted, x)) == multiset{sorted[0]} + multiset(Insert(sorted[1..], x));
    }
  }

  lemma {:induction false} InsertKeepsSorted(sorted: seq<BalanceEntry>, x: BalanceEntry)
    requires SortedByBalance(sorted)
    ensures SortedByBalance(Insert(sorted, x))
  {
    var r := Insert(sorted, x);
    if sorted == [] || sorted[0].balance < x.balance {
      forall p, q | 0 <= p < q < |r| ensures r[p].balance >= r[q].balance {
        assert r[q] == sorted[q - 1];
        if p > 0 {
          assert r[p] == sorted[p - 1];
        }
      }
    } else {
      var tail := sorted[1..];
      assert SortedByBalance(tail) by {
        forall p, q | 0 <= p < q < |tail| ensures tail[p].balance >= tail[q].balance {
          assert tail[p] == sorted[p + 1] && tail[q] == sorted[q + 1];
        }
      }
      var rest := Insert(tail, x);
      InsertKeepsSorted(tail, x);
      InsertPermutes(tail, x);
      assert forall k :: 0 <= k < |tail| ==> tail[k].balance <= sorted[0].balance by {
        forall k | 0 <= k < |tail| ensures tail[k].balance <= sorted[0].balance {
          assert tail[k] == sorted[k + 1];
        }
      }
      InsertBounded(tail, x, rest, sorted[0].balance);
      forall p, q | 0 <= p < q < |r| ensures r[p].balance >= r[q].balance {
        assert r[q] == rest[q - 1];
        if p > 0 {
          assert r[p] == rest[p - 1];
        }
      }
    }
  }

  /** Every element of a permutation of `tail` plus `x` is bounded by what bounds `tail` and `x`. */
  lemma InsertBounded(tail: seq<BalanceEntry>, x: BalanceEntry, rest: seq<BalanceEntry>, bound: Cents)
    requires multiset(rest) == multiset(tail) + multiset{x}
    requires x.balance <= bound && forall k :: 0 <= k < |tail| ==> tail[k].balance <= bound
    ensures forall k :: 0 <= k < |rest| ==> rest[k].balance <= bound
  {
    forall k | 0 <= k < |rest| ensures rest[k].balance <= bound {
      assert rest[k] in multiset(rest);
      if rest[k] != x {
        assert rest[k] in multiset(tail);
      }
    }
  }

  /** `Object.values(balances).sort((a, b) => b.balance - a.balance)`: a stable descending sort. */
  function SortDesc(s: seq<BalanceEntry>): (r: seq<BalanceEntry>)
    ensures |r| == |s|
  {
    if s == [] then [] else Insert(SortDesc(s[..|s| - 1]), s[|s| - 1])
  }

  /** The sort orders the table by balance, largest debt first, and keeps every entry. */
  lemma {:induction false} SortDescSortsAndPermutes(s: seq<BalanceEntry>)
    ensures SortedByBalance(SortDesc(s))
    ensures multiset(SortDesc(s)) == multiset(s)
  {
    if s != [] {
      SortDescSortsAndPermutes(s[..|s| - 1]);
      InsertKeepsSorted(SortDesc(s[..|s| - 1]), s[|s| - 1]);
      InsertPermutes(SortDesc(s[..|s| - 1]), s[|s| - 1]);
      assert s == s[..|s| - 1] + [s[|s| - 1]];
    }
  }

  function Balances(entries: seq<BalanceEntry>): (r: seq<Cents>)
    ensures |r| == |entries| && forall k :: 0 <= k < |entries| ==> r[k] == entries[k].balance
  {
    seq(|entries|, k requires 0 <= k < |entries| => entries[k].balance)
  }

  // ---------------------------------------------------------------- the loop as a state machine

  /** A payment the loop suggests, between two positions of the sorted table. */
  datatype Transfer = Transfer(from: nat, to: nat, amount: Cents)

  datatype MatchState = MatchState(bal: seq<Cents>, i: int, j: int, iterations: nat, transfers: seq<Transfer>)

  function Cap(n: nat): nat {
    n * n
  }

  predicate WellFormed(s: MatchState) {
    var n := |s.bal|;
    0 <= s.i <= n && -1 <= s.j < n && s.i <= s.j + 1 && s.iterations <= Cap(n)
  }

  /** The front debtor and the back creditor, before any round (`i = 0`, `j = n - 1`). */
  function Start(init: seq<Cents>): (s: MatchState)
    ensures WellFormed(s)
  {
    MatchState(init, 0, |init| - 1, 0, [])
  }

  /** The loop condition fails, or the round breaks because a side has nothing left to settle. */
  predicate Halted(s: MatchState)
    requires WellFormed(s)
  {
    !(s.i < s.j && s.iterations < Cap(|s.bal|)) || s.bal[s.i] <= 0 || s.bal[s.j] >= 0
  }

  /**
   * One round: the amount is the smaller of the debt and the credit; it is suggested and moved
   * only when above one cent; a side whose balance reaches zero is passed over.
   */
  function Step(s: MatchState): (r: MatchState)
    requires WellFormed(s) && !Halted(s)
    ensures WellFormed(r) && |r.bal| == |s.bal| && r.iterations == s.iterations + 1
  {
    var amount := Min(s.bal[s.i], -s.bal[s.j]);
    var bal := if amount > 1 then s.bal[s.i := s.bal[s.i] - amount][s.j := s.bal[s.j] + amount] else s.bal;
    var transfers := if amount > 1 then s.transfers + [Transfer(s.i, s.j, amount)] else s.transfers;
    MatchState(bal,
      if bal[s.i] == 0 then s.i + 1 else s.i,
      if bal[s.j] == 0 then s.j - 1 else s.j,
      s.iterations + 1, transfers)
  }

  /** The whole loop: rounds until it halts; the iteration cap bounds the number of rounds. */
  function Run(s: MatchState): (r: MatchState)
    requires WellFormed(s)
    ensures WellFormed(r) && Halted(r) && |r.bal| == |s.bal|
    decreases Cap(|s.bal|) - s.iterations
  {
    if Halted(s) then s else Run(Step(s))
  }

  // ---------------------------------------------------------------- what every round preserves

  function Sum(b: seq<Cents>): Cents {
    if b == [] then 0 else Sum(b[..|b| - 1]) + b[|b| - 1]
  }

  function Out(ts: seq<Transfer>, p: nat): Cents {
    if ts == [] then 0 else Out(ts[..|ts| - 1], p) + (if ts[|ts| - 1].from == p then ts[|ts| - 1].amount else 0)
  }

  function In(ts: seq<Transfer>, p: nat): Cents {
    if ts == [] then 0 else In(ts[..|ts| - 1], p) + (if ts[|ts| - 1].to == p then ts[|ts| - 1].amount else 0)
  }

  function Max0(x: int): nat {
    if x < 0 then 0 else x
  }

  /** A balance only moves towards zero, never past it. */
  predicate SignKept(init: seq<Cents>, bal: seq<Cents>)
    requires |init| == |bal|
  {
    forall p :: 0 <= p < |bal| ==>
      (init[p] >= 0 ==> 0 <= bal[p] <= init[p]) && (init[p] <= 0 ==> init[p] <= bal[p] <= 0)
  }

  /** Every suggestion goes from a debtor to a creditor further back, for more than one cent. */
  predicate TransfersValid(init: seq<Cents>, ts: seq<Transfer>) {
    forall k :: 0 <= k < |ts| ==>
      ts[k].from < ts[k].to < |init| && init[ts[k].from] > 0 && init[ts[k].to] < 0 && ts[k].amount > 1
  }

  /** Each balance is its start value less what it paid plus what it received. */
  predicate FlowKept(init: seq<Cents>, s: MatchState)
    requires |s.bal| == |init|
  {
    forall p :: 0 <= p < |init| ==> s.bal[p] == init[p] - Out(s.transfers, p) + In(s.transfers, p)
  }

  /** Each suggestion closed a gap between the pointers: fewer suggestions than entries. */
  predicate CountKept(init: seq<Cents>, s: MatchState) {
    |s.transfers| + Max0(s.j - s.i) <= Max0(|init| - 1)
  }

  /** Entries passed over are settled; entries between the pointers are untouched. */
  predicate PointersKept(init: seq<Cents>, s: MatchState)
    requires |s.bal| == |init| && WellFormed(s)
  {
    var n := |init|;
    && (forall p :: 0 <= p < s.i ==> s.bal[p] == 0)
    && (forall p :: s.j < p < n ==> s.bal[p] == 0)
    && (forall p :: s.i < p < s.j ==> s.bal[p] == init[p])
    && (s.i < s.j ==> (s.bal[s.i] == init[s.i] || s.bal[s.i] > 0) && (s.bal[s.j] == init[s.j] || s.bal[s.j] < 0))
  }

  predicate Inv(init: seq<Cents>, s: MatchState) {
    && WellFormed(s) && |s.bal| == |init|
    && SignKept(init, s.bal)
    && FlowKept(init, s)
    && TransfersValid(init, s.transfers)
    && CountKept(init, s)
    && PointersKept(init, s)
  }

  lemma InvStart(init: seq<Cents>)
    ensures Inv(init, Start(init))
  {
  }

  lemma {:induction false} FlowOfAppend(ts: seq<Transfer>, t: Transfer, p: nat)
    ensures Out(ts + [t], p) == Out(ts, p) + (if t.from == p then t.amount else 0)
    ensures In(ts + [t], p) == In(ts, p) + (if t.to == p then t.amount else 0)
  {
    assert (ts + [t])[..|ts|] == ts;
  }

  lemma StepKeepsSign(init: seq<Cents>, s: MatchState)
    requires WellFormed(s) && |s.bal| == |init| && !Halted(s) && SignKept(init, s.bal)
    ensures SignKept(init, Step(s).bal)
  {
  }

  lemma StepKeepsFlow(init: seq<Cents>, s: MatchState)
    requires WellFormed(s) && |s.bal| == |init| && !Halted(s) && FlowKept(init, s)
    ensures FlowKept(init, Step(s))
  {
    var r := Step(s);
    var amount := Min(s.bal[s.i], -s.bal[s.j]);
    if amount > 1 {
      forall p | 0 <= p < |init|
        ensures r.bal[p] == init[p] - Out(r.transfers, p) + In(r.transfers, p)
      {
        FlowOfAppend(s.transfers, Transfer(s.i, s.j, amount), p);
      }
    }
  }

  lemma StepKeepsTransfers(init: seq<Cents>, s: MatchState)
    requires WellFormed(s) && |s.bal| == |init| && !Halted(s) && SignKept(init, s.bal) && TransfersValid(init, s.transfers)
    ensures TransfersValid(init, Step(s).transfers)
  {
    var r := Step(s);
    var amount := Min(s.bal[s.i], -s.bal[s.j]);
    if amount > 1 {
      assert init[s.i] > 0 && init[s.j] < 0;
      forall k | 0 <= k < |r.transfers|
        ensures r.transfers[k].from < r.transfers[k].to < |init| && init[r.transfers[k].from] > 0
          && init[r.transfers[k].to] < 0 && r.transfers[k].amount > 1
      {
        if k < |s.transfers| {
          assert r.transfers[k] == s.transfers[k];
        }
      }
    }
  }

  lemma StepKeepsCount(init: seq<Cents>, s: MatchState)
    requires WellFormed(s) && |s.bal| == |init| && !Halted(s) && CountKept(init, s)
    ensures CountKept(init, Step(s))
  {
  }

  lemma StepKeepsPointers(init: seq<Cents>, s: MatchState)
    requires WellFormed(s) && |s.bal| == |init| && !Halted(s) && SignKept(init, s.bal) && PointersKept(init, s)
    ensures PointersKept(init, Step(s))
  {
  }

  lemma StepKeepsInv(init: seq<Cents>, s: MatchState)
    requires Inv(init, s) && !Halted(s)
    ensures Inv(init, Step(s))
  {
    StepKeepsSign(init, s);
    StepKeepsFlow(init, s);
    StepKeepsTransfers(init, s);
    StepKeepsCount(init, s);
    StepKeepsPointers(init, s);
  }

  lemma {:induction false} RunKeepsInv(init: seq<Cents>, s: MatchState)
    requires Inv(init, s)
    ensures Inv(init, Run(s))
    decreases Cap(|s.bal|) - s.iterations
  {
    if !Halted(s) {
      StepKeepsInv(init, s);
      RunKeepsInv(init, Step(s));
    }
  }

  /** The pointers only move inwards, and any round that suggests a payment moves one. */
  lemma StepMovesPointersInward(s: MatchState)
    requires WellFormed(s) && !Halted(s)
    ensures Step(s).i >= s.i && Step(s).j <= s.j
    ensures |Step(s).transfers| > |s.transfers| ==> Step(s).i > s.i || Step(s).j < s.j
    ensures |Step(s).transfers| <= |s.transfers| + 1
  {
  }

  /** A round that moves no money moves no pointer either: at one cent a side the loop stalls. */
  lemma OneCentStalls(s: MatchState)
    requires WellFormed(s) && !Halted(s)
    requires Min(s.bal[s.i], -s.bal[s.j]) == 1
    ensures Step(s) == s.(iterations := s.iterations + 1)
  {
  }

  // ---------------------------------------------------------------- what the whole loop achieves

  /**
   * Running the loop from the sorted table: money is only moved between the members it
   * suggests, every suggestion goes from a debtor to a creditor placed after it for more than
   * one cent, fewer suggestions than entries, and no balance crosses zero.
   */
  lemma RunIsSound(init: seq<Cents>)
    ensures var fin := Run(Start(init));
      && |fin.bal| == |init|
      && (forall p :: 0 <= p < |init| ==> fin.bal[p] == init[p] - Out(fin.transfers, p) + In(fin.transfers, p))
      && TransfersValid(init, fin.transfers)
      && |fin.transfers| <= Max0(|init| - 1)
      && SignKept(init, fin.bal)
      && fin.iterations <= Cap(|init|)
  {
    InvStart(init);
    RunKeepsInv(init, Start(init));
  }

  lemma {:induction false} SumOfNonPositive(b: seq<Cents>)
    requires forall p :: 0 <= p < |b| ==> b[p] <= 0
    requires Sum(b) == 0
    ensures forall p :: 0 <= p < |b| ==> b[p] == 0
  {
    if b != [] {
      SumNonPositive(b[..|b| - 1]);
      SumOfNonPositive(b[..|b| - 1]);
      assert forall p :: 0 <= p < |b| - 1 ==> b[p] == b[..|b| - 1][p];
    }
  }

  lemma {:induction false} SumNonPositive(b: seq<Cents>)
    requires forall p :: 0 <= p < |b| ==> b[p] <= 0
    ensures Sum(b) <= 0
  {
    if b != [] {
      SumNonPositive(b[..|b| - 1]);
    }
  }

  lemma {:induction false} SumOfNonNegative(b: seq<Cents>)
    requires forall p :: 0 <= p < |b| ==> b[p] >= 0
    requires Sum(b) == 0
    ensures forall p :: 0 <= p < |b| ==> b[p] == 0
  {
    if b != [] {
      SumNonNegative(b[..|b| - 1]);
      SumOfNonNegative(b[..|b| - 1]);
      assert forall p :: 0 <= p < |b| - 1 ==> b[p] == b[..|b| - 1][p];
    }
  }

  lemma {:induction false} SumNonNegative(b: seq<Cents>)
    requires forall p :: 0 <= p < |b| ==> b[p] >= 0
    ensures Sum(b) >= 0
  {
    if b != [] {
      SumNonNegative(b[..|b| - 1]);
    }
  }

  lemma {:induction false} SumUpdate(b: seq<Cents>, p: nat, v: Cents)
    requires p < |b|
    ensures Sum(b[p := v]) == Sum(b) - b[p] + v
  {
    var n := |b| - 1;
    if p < n {
      assert b[p := v][..n] == b[..n][p := v];
      SumUpdate(b[..n], p, v);
    } else {
      assert b[p := v][..n] == b[..n];
    }
  }

  /** A round that is not the last one leaves the rest of the loop to the next state. */
  lemma RunUnfolds(s: MatchState)
    requires WellFormed(s) && !Halted(s)
    ensures Run(s) == Run(Step(s))
  {
  }

  /** A round in terms of the balances and transfers it leaves. */
  lemma StepIs(s: MatchState, bal: seq<Cents>, transfers: seq<Transfer>)
    requires WellFormed(s) && !Halted(s)
    requires var amount := Min(s.bal[s.i], -s.bal[s.j]);
      && bal == (if amount > 1 then s.bal[s.i := s.bal[s.i] - amount][s.j := s.bal[s.j] + amount] else s.bal)
      && transfers == (if amount > 1 then s.transfers + [Transfer(s.i, s.j, amount)] else s.transfers)
    ensures |bal| == |s.bal|
    ensures Step(s) == MatchState(bal, if bal[s.i] == 0 then s.i + 1 else s.i,
                                  if bal[s.j] == 0 then s.j - 1 else s.j, s.iterations + 1, transfers)
  {
  }

  lemma StepKeepsSum(s: MatchState)
    requires WellFormed(s) && !Halted(s)
    ensures Sum(Step(s).bal) == Sum(s.bal)
  {
    var amount := Min(s.bal[s.i], -s.bal[s.j]);
    if amount > 1 {
      var b1 := s.bal[s.i := s.bal[s.i] - amount];
      var b2 := b1[s.j := s.bal[s.j] + amount];
      assert Step(s).bal == b2;
      SumUpdate(s.bal, s.i, s.bal[s.i] - amount);
      SumUpdate(b1, s.j, s.bal[s.j] + amount);
    } else {
      assert Step(s).bal == s.bal;
    }
  }

  /** Every round, hence the whole loop, keeps the total of the balances. */
  lemma {:induction false} RunKeepsSum(s: MatchState)
    requires WellFormed(s)
    ensures Sum(Run(s).bal) == Sum(s.bal)
    decreases Cap(|s.bal|) - s.iterations
  {
    if !Halted(s) {
      StepKeepsSum(s);
      RunKeepsSum(Step(s));
    }
  }

  lemma {:induction false} SumOfSingle(b: seq<Cents>, q: nat)
    requires q < |b| && forall p :: 0 <= p < |b| && p != q ==> b[p] == 0
    ensures Sum(b) == b[q]
  {
    var pre := b[..|b| - 1];
    if q < |b| - 1 {
      assert forall p :: 0 <= p < |pre| && p != q ==> pre[p] == 0 by {
        forall p | 0 <= p < |pre| ensures pre[p] == b[p] { }
      }
      SumOfSingle(pre, q);
    } else {
      SumZero(pre);
    }
  }

  lemma {:induction false} SumZero(b: seq<Cents>)
    requires forall p :: 0 <= p < |b| ==> b[p] == 0
    ensures Sum(b) == 0
  {
    if b != [] {
      SumZero(b[..|b| - 1]);
    }
  }

  /** A halted state inside the cap, from a sorted table that adds up to zero, has settled everyone. */
  lemma HaltedInsideCapIsSettled(init: seq<Cents>, s: MatchState)
    requires Inv(init, s) && Halted(s) && s.iterations < Cap(|init|)
    requires forall p, q :: 0 <= p < q < |init| ==> init[p] >= init[q]
    requires Sum(s.bal) == 0
    ensures forall p :: 0 <= p < |init| ==> s.bal[p] == 0
  {
    var n := |init|;
    if s.i >= s.j {
      if s.i == s.j {
        SumOfSingle(s.bal, s.i);
      }
    } else if s.bal[s.i] <= 0 {
      assert forall p :: 0 <= p < n ==> s.bal[p] <= 0 by {
        forall p | 0 <= p < n ensures s.bal[p] <= 0 {
          if s.i <= p {
            assert init[p] <= init[s.i];
          }
        }
      }
      SumOfNonPositive(s.bal);
    } else {
      assert forall p :: 0 <= p < n ==> s.bal[p] >= 0 by {
        forall p | 0 <= p < n ensures s.bal[p] >= 0 {
          if p <= s.j {
            assert init[p] >= init[s.j];
          }
        }
      }
      SumOfNonNegative(s.bal);
    }
  }

  /**
   * Completeness: from a table sorted in descending order whose balances add up to zero,
   * a loop that stops before the cap leaves every balance at zero, so the suggestions settle
   * every debt exactly.
   */
  lemma RunSettlesAllUnlessCapped(init: seq<Cents>)
    requires forall p, q :: 0 <= p < q < |init| ==> init[p] >= init[q]
    requires Sum(init) == 0
    requires Run(Start(init)).iterations < Cap(|init|)
    ensures forall p :: 0 <= p < |init| ==> Run(Start(init)).bal[p] == 0
    ensures forall p :: 0 <= p < |init| ==> Out(Run(Start(init)).transfers, p) - In(Run(Start(init)).transfers, p) == init[p]
  {
    InvStart(init);
    RunKeepsInv(init, Start(init));
    RunKeepsSum(Start(init));
    HaltedInsideCapIsSettled(init, Run(Start(init)));
  }

  /** A one-cent debt against a one-cent credit is never suggested and only the cap ends the loop. */
  lemma OneCentResidualRunsToCap()
    ensures Run(Start([1, -1])) == MatchState([1, -1], 0, 1, 4, [])
  {
    var s0 := Start([1, -1]);
    assert Step(s0) == s0.(iterations := 1);
    assert Step(s0.(iterations := 1)) == s0.(iterations := 2);
    assert Step(s0.(iterations := 2)) == s0.(iterations := 3);
    assert Step(s0.(iterations := 3)) == s0.(iterations := 4);
  }

  /** A owes 30, B is owed 10 and C is owed 20: A pays C 20, then A pays B 10. */
  lemma ThreeMemberExample()
    ensures var fin := Run(Start([3000, -1000, -2000]));
      fin.transfers == [Transfer(0, 2, 2000), Transfer(0, 1, 1000)] && fin.bal == [0, 0, 0]
  {
    var s0 := Start([3000, -1000, -2000]);
    var s1 := MatchState([1000, -1000, 0], 0, 1, 1, [Transfer(0, 2, 2000)]);
    var s2 := MatchState([0, 0, 0], 1, 0, 2, [Transfer(0, 2, 2000), Transfer(0, 1, 1000)]);
    assert Step(s0) == s1;
    assert Step(s1) == s2;
    assert Halted(s2);
  }

  // ---------------------------------------------------------------- the loop itself

  /** A suggested payment as the response lists it. */
  datatype Suggestion = Suggestion(fromUser: UserRef, toUser: UserRef, amount: Cents)

  function RefOfEntry(e: BalanceEntry): UserRef {
    UserRef(e.userId, e.name, e.email)
  }

  function Suggestions(sorted: seq<BalanceEntry>, ts: seq<Transfer>): (r: seq<Suggestion>)
    requires forall k :: 0 <= k < |ts| ==> ts[k].from < |sorted| && ts[k].to < |sorted|
    ensures |r| == |ts|
  {
    seq(|ts|, k requires 0 <= k < |ts| => Suggestion(RefOfEntry(sorted[ts[k].from]), RefOfEntry(sorted[ts[k].to]), ts[k].amount))
  }

  /** The sorted entries with the balances the loop left in them. */
  function WithBalances(sorted: seq<BalanceEntry>, bal: seq<Cents>): (r: seq<BalanceEntry>)
    requires |bal| == |sorted|
    ensures |r| == |sorted| && forall k :: 0 <= k < |r| ==> r[k] == sorted[k].(balance := bal[k])
  {
    seq(|sorted|, k requires 0 <= k < |sorted| => sorted[k].(balance := bal[k]))
  }

  /** One round of the loop body: settle the front debtor against the back creditor. */
  method MatchRound(st: MatchState) returns (next: MatchState)
    requires WellFormed(st) && !Halted(st)
    ensures next == Step(st)
  {
    var i, j := st.i, st.j;
    var bal, transfers := st.bal, st.transfers;
    var amount := Min(bal[i], -bal[j]);
    if amount > 1 {
      transfers := transfers + [Transfer(i, j, amount)];
      bal := bal[i := bal[i] - amount][j := bal[j] + amount];
    }
    StepIs(st, bal, transfers);
    if bal[i] == 0 {
      i := i + 1;
    }
    if bal[j] == 0 {
      j := j - 1;
    }
    next := MatchState(bal, i, j, st.iterations + 1, transfers);
  }

  /** The loop over the balances: two pointers, front debtor and back creditor, until they meet or the cap. */
  method MatchLoop(init: seq<Cents>) returns (fin: MatchState)
    ensures fin == Run(Start(init))
  {
    var n := |init|;
    var cap := Cap(n);
    var st := Start(init);
    ghost var target := Run(st);
    while st.i < st.j && st.iterations < cap
      invariant WellFormed(st) && |st.bal| == n
      invariant Run(st) == target
      decreases cap - st.iterations
    {
      if st.bal[st.i] <= 0 || st.bal[st.j] >= 0 {
        break;
      }
      RunUnfolds(st);
      st := MatchRound(st);
    }
    fin := st;
    assert Halted(fin);
  }

  /**
   * The matching step of the settlement calculation over the sorted table; it mutates the
   * balances of the entries it settles, which `residual` returns.
   */
  method MatchDebts(sorted: seq<BalanceEntry>) returns (suggestions: seq<Suggestion>, residual: seq<BalanceEntry>)
    ensures var fin := Run(Start(Balances(sorted)));
      && (forall k :: 0 <= k < |fin.transfers| ==> fin.transfers[k].from < |sorted| && fin.transfers[k].to < |sorted|)
      && suggestions == Suggestions(sorted, fin.transfers)
      && residual == WithBalances(sorted, fin.bal)
  {
    var init := Balances(sorted);
    var fin := MatchLoop(init);
    RunIsSound(init);
    suggestions := Suggestions(sorted, fin.transfers);
    residual := WithBalances(sorted, fin.bal);
  }
}
