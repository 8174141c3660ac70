/**
 * The balance table of the settlement calculation: one entry per active member, the amounts
 * that member paid and owes over the group's unsettled expenses, and `balance = owed - paid`
 * (positive: owes money, negative: is owed). Also the caller's own balance shown with a group.
 */
module BalanceAggregator {
  import opened Results
  import opened Money
  import opened ExpenseGroupModel
  import opened GroupExpenseModel

  datatype BalanceEntry = BalanceEntry(
    userId: UserId, name: string, email: string,
    totalPaid: Cents, totalOwed: Cents, balance: Cents)

  // ---------------------------------------------------------------- the entry table

  function IdsOf(entries: seq<BalanceEntry>): (r: seq<UserId>)
    ensures |r| == |entries| && forall k :: 0 <= k < |entries| ==> r[k] == entries[k].userId
  {
    seq(|entries|, k requires 0 <= k < |entries| => entries[k].userId)
  }

  /** The position of the entry keyed by `id`, as a dictionary lookup finds it. */
  function IndexOf(entries: seq<BalanceEntry>, id: UserId): (r: Option<nat>)
    ensures r.Some? ==> r.value < |entries| && entries[r.value].userId == id
    ensures r.None? <==> id !in IdsOf(entries)
  {
    if entries == [] then None
    else if entries[0].userId == id then Some(0)
    else match IndexOf(entries[1..], id)
      case Some(p) => Some(p + 1)
      case None =>
        assert IdsOf(entries) == [entries[0].userId] + IdsOf(entries[1..]);
        None
  }

  predicate DistinctKeys(entries: seq<BalanceEntry>) {
    forall i, j :: 0 <= i < j < |entries| ==> entries[i].userId != entries[j].userId
  }

  function ZeroEntry(m: GroupMember): BalanceEntry {
    BalanceEntry(m.userId, m.name, m.email, 0, 0, 0)
  }

  /**
   * `balances[m.expenseAppUserId] = {...}` for each active member in order: a new key is
   * appended, a repeated key keeps its place and takes the later member's name and e-mail.
   */
  function InitEntries(members: seq<GroupMember>): (r: seq<BalanceEntry>)
    ensures DistinctKeys(r)
    ensures forall k :: 0 <= k < |r| ==> r[k].totalPaid == 0 && r[k].totalOwed == 0 && r[k].balance == 0
  {
    if members == [] then []
    else
      var r := InitEntries(members[..|members| - 1]);
      var m := members[|members| - 1];
      if !m.isActive then r
      else match IndexOf(r, m.userId)
        case Some(p) => r[p := ZeroEntry(m)]
        case None => r + [ZeroEntry(m)]
  }

  /** Only active members have an entry, and every active member has one. */
  lemma {:induction false} InitEntriesAreActiveMembers(members: seq<GroupMember>)
    ensures forall id :: id in IdsOf(InitEntries(members)) <==>
      exists k :: 0 <= k < |members| && members[k].userId == id && members[k].isActive
  {
    if members != [] {
      var prefix := members[..|members| - 1];
      InitEntriesAreActiveMembers(prefix);
      var r := InitEntries(prefix);
      var m := members[|members| - 1];
      var q := InitEntries(members);
      assert IdsOf(q) == IdsOf(r) || IdsOf(q) == IdsOf(r) + [m.userId] || IdsOf(q) == IdsOf(r)[IndexOf(r, m.userId).value := m.userId] by {
        if m.isActive && IndexOf(r, m.userId).Some? {
          assert IdsOf(q) == IdsOf(r)[IndexOf(r, m.userId).value := m.userId];
        }
      }
      forall id
        ensures id in IdsOf(q) <==> exists k :: 0 <= k < |members| && members[k].userId == id && members[k].isActive
      {
        if exists k :: 0 <= k < |prefix| && prefix[k].userId == id && prefix[k].isActive {
          var k :| 0 <= k < |prefix| && prefix[k].userId == id && prefix[k].isActive;
          assert members[k] == prefix[k];
        }
        if exists k :: 0 <= k < |members| && members[k].userId == id && members[k].isActive {
          var k :| 0 <= k < |members| && members[k].userId == id && members[k].isActive;
          if k < |prefix| {
            assert members[k] == prefix[k];
          }
        }
        if m.isActive && IndexOf(r, m.userId).Some? {
          var p := IndexOf(r, m.userId).value;
          assert IdsOf(q)[p] == IdsOf(r)[p];
        }
      }
    }
  }

  // ---------------------------------------------------------------- the tallies

  /** What `id` paid: the amounts of the expenses it is the payer of. */
  function PaidBy(expenses: seq<GroupExpense>, id: UserId): Cents {
    if expenses == [] then 0
    else
      var e := expenses[|expenses| - 1];
      PaidBy(expenses[..|expenses| - 1], id) + (if e.paidBy.userId == id then e.amount else 0)
  }

  /** What `id` owes within one expense: every split row keyed by it. */
  function OwedIn(splits: seq<Split>, id: UserId): Cents {
    if splits == [] then 0
    else
      var s := splits[|splits| - 1];
      OwedIn(splits[..|splits| - 1], id) + (if s.userId == id then s.amount else 0)
  }

  function OwedBy(expenses: seq<GroupExpense>, id: UserId): Cents {
    if expenses == [] then 0
    else OwedBy(expenses[..|expenses| - 1], id) + OwedIn(expenses[|expenses| - 1].splits, id)
  }

  /** The table the settlement calculation reports, before the matcher runs. */
  predicate Tallied(entries: seq<BalanceEntry>, members: seq<GroupMember>, expenses: seq<GroupExpense>) {
    var init := InitEntries(members);
    && SameKeys(entries, init)
    && forall k :: 0 <= k < |entries| ==>
         && entries[k].totalPaid == PaidBy(expenses, init[k].userId)
         && entries[k].totalOwed == OwedBy(expenses, init[k].userId)
         && entries[k].balance == entries[k].totalOwed - entries[k].totalPaid
  }

  /** The same keys, names and e-mails in the same places. */
  predicate SameKeys(entries: seq<BalanceEntry>, init: seq<BalanceEntry>) {
    && |entries| == |init|
    && forall k :: 0 <= k < |entries| ==>
         entries[k].userId == init[k].userId && entries[k].name == init[k].name && entries[k].email == init[k].email
  }

  /** The entries hold the payments of `paid` and the split rows of `owed` plus `rows`. */
  predicate TalliedSoFar(entries: seq<BalanceEntry>, init: seq<BalanceEntry>,
                         paid: seq<GroupExpense>, owed: seq<GroupExpense>, rows: seq<Split>) {
    && SameKeys(entries, init)
    && forall k :: 0 <= k < |entries| ==>
         && entries[k].totalPaid == PaidBy(paid, init[k].userId)
         && entries[k].totalOwed == OwedBy(owed, init[k].userId) + OwedIn(rows, init[k].userId)
  }

  /** `if (balances[id]) balances[id].totalPaid += amount`. */
  method AddPaid(entries: seq<BalanceEntry>, id: UserId, amount: Cents) returns (r: seq<BalanceEntry>)
    requires DistinctKeys(entries)
    ensures SameKeys(r, entries) && DistinctKeys(r)
    ensures forall k :: 0 <= k < |r| ==>
      r[k] == entries[k].(totalPaid := entries[k].totalPaid + (if entries[k].userId == id then amount else 0))
  {
    r := entries;
    var p := IndexOf(entries, id);
    if p.Some? {
      r := entries[p.value := entries[p.value].(totalPaid := entries[p.value].totalPaid + amount)];
    }
  }

  /** `if (balances[id]) balances[id].totalOwed += amount`. */
  method AddOwed(entries: seq<BalanceEntry>, id: UserId, amount: Cents) returns (r: seq<BalanceEntry>)
    requires DistinctKeys(entries)
    ensures SameKeys(r, entries) && DistinctKeys(r)
    ensures forall k :: 0 <= k < |r| ==>
      r[k] == entries[k].(totalOwed := entries[k].totalOwed + (if entries[k].userId == id then amount else 0))
  {
    r := entries;
    var p := IndexOf(entries, id);
    if p.Some? {
      r := entries[p.value := entries[p.value].(totalOwed := entries[p.value].totalOwed + amount)];
    }
  }

  lemma SameKeysTrans(a: seq<BalanceEntry>, b: seq<BalanceEntry>, c: seq<BalanceEntry>)
    requires SameKeys(a, b) && SameKeys(b, c)
    ensures SameKeys(a, c)
  {
  }

  /** One expense of the second loop: its payment, then each of its split rows. */
  method TallyExpense(entries: seq<BalanceEntry>, init: seq<BalanceEntry>, done: seq<GroupExpense>, e: GroupExpense)
    returns (r: seq<BalanceEntry>)
    requires DistinctKeys(entries) && TalliedSoFar(entries, init, done, done, [])
    ensures DistinctKeys(r) && TalliedSoFar(r, init, done + [e], done + [e], [])
  {
    var next := done + [e];
    assert next[..|next| - 1] == done;
    r := AddPaid(entries, e.paidBy.userId, e.amount);
    var j := 0;
    while j < |e.splits|
      invariant 0 <= j <= |e.splits|
      invariant DistinctKeys(r) && TalliedSoFar(r, init, next, done, e.splits[..j])
    {
      assert e.splits[..j + 1][..j] == e.splits[..j];
      var before := r;
      r := AddOwed(r, e.splits[j].userId, e.splits[j].amount);
      SameKeysTrans(r, before, init);
      j := j + 1;
    }
    assert e.splits[..j] == e.splits;
  }

  /**
   * The three loops of the settlement calculation over the group's active, unsettled
   * expenses: create the entries, add each payment and each split row to the entry of an
   * active member (others are ignored), then set every balance.
   */
  method ComputeBalances(members: seq<GroupMember>, expenses: seq<GroupExpense>)
    returns (entries: seq<BalanceEntry>)
    ensures Tallied(entries, members, expenses)
    ensures DistinctKeys(entries)
  {
    var init := InitEntries(members);
    entries := init;
    var i := 0;
    while i < |expenses|
      invariant 0 <= i <= |expenses|
      invariant DistinctKeys(entries) && TalliedSoFar(entries, init, expenses[..i], expenses[..i], [])
    {
      assert expenses[..i + 1] == expenses[..i] + [expenses[i]];
      entries := TallyExpense(entries, init, expenses[..i], expenses[i]);
      i := i + 1;
    }
    assert expenses[..i] == expenses;
    var k := 0;
    while k < |entries|
      invariant 0 <= k <= |entries|
      invariant DistinctKeys(entries) && TalliedSoFar(entries, init, expenses, expenses, [])
      invariant forall t :: 0 <= t < k ==> entries[t].balance == entries[t].totalOwed - entries[t].totalPaid
    {
      entries := entries[k := entries[k].(balance := entries[k].totalOwed - entries[k].totalPaid)];
      k := k + 1;
    }
  }

  // ---------------------------------------------------------------- conservation

  function SumBalances(entries: seq<BalanceEntry>): Cents {
    if entries == [] then 0 else SumBalances(entries[..|entries| - 1]) + entries[|entries| - 1].balance
  }

  /** Amounts paid by a payer among `ids`. */
  function PaidWithin(expenses: seq<GroupExpense>, ids: seq<UserId>): Cents {
    if expenses == [] then 0
    else
      var e := expenses[|expenses| - 1];
      PaidWithin(expenses[..|expenses| - 1], ids) + (if e.paidBy.userId in ids then e.amount else 0)
  }

  /** Split rows keyed by a user among `ids`. */
  function SplitsWithin(splits: seq<Split>, ids: seq<UserId>): Cents {
    if splits == [] then 0
    else
      var s := splits[|splits| - 1];
      SplitsWithin(splits[..|splits| - 1], ids) + (if s.userId in ids then s.amount else 0)
  }

  function OwedWithin(expenses: seq<GroupExpense>, ids: seq<UserId>): Cents {
    if expenses == [] then 0
    else OwedWithin(expenses[..|expenses| - 1], ids) + SplitsWithin(expenses[|expenses| - 1].splits, ids)
  }

  function SumPaid(ids: seq<UserId>, expenses: seq<GroupExpense>): Cents {
    if ids == [] then 0 else SumPaid(ids[..|ids| - 1], expenses) + PaidBy(expenses, ids[|ids| - 1])
  }

  function SumOwedIn(ids: seq<UserId>, splits: seq<Split>): Cents {
    if ids == [] then 0 else SumOwedIn(ids[..|ids| - 1], splits) + OwedIn(splits, ids[|ids| - 1])
  }

  function SumOwed(ids: seq<UserId>, expenses: seq<GroupExpense>): Cents {
    if ids == [] then 0 else SumOwed(ids[..|ids| - 1], expenses) + OwedBy(expenses, ids[|ids| - 1])
  }

  /** `a` counted once for each position of `x` in `ids`. */
  function CountTimes(ids: seq<UserId>, x: UserId, a: Cents): Cents {
    if ids == [] then 0 else CountTimes(ids[..|ids| - 1], x, a) + (if ids[|ids| - 1] == x then a else 0)
  }

  predicate Distinct(ids: seq<UserId>) {
    forall i, j :: 0 <= i < j < |ids| ==> ids[i] != ids[j]
  }

  lemma {:induction false} CountTimesDistinct(ids: seq<UserId>, x: UserId, a: Cents)
    requires Distinct(ids)
    ensures CountTimes(ids, x, a) == if x in ids then a else 0
  {
    if ids != [] {
      var prefix := ids[..|ids| - 1];
      CountTimesDistinct(prefix, x, a);
      assert ids == prefix + [ids[|ids| - 1]];
      if ids[|ids| - 1] == x {
        assert x !in prefix by {
          forall k | 0 <= k < |prefix| ensures prefix[k] != x {
            assert prefix[k] == ids[k];
          }
        }
      }
    }
  }

  lemma {:induction false} SumPaidStep(ids: seq<UserId>, expenses: seq<GroupExpense>)
    requires expenses != []
    ensures var e := expenses[|expenses| - 1];
      SumPaid(ids, expenses) == SumPaid(ids, expenses[..|expenses| - 1]) + CountTimes(ids, e.paidBy.userId, e.amount)
  {
    if ids != [] {
      SumPaidStep(ids[..|ids| - 1], expenses);
    }
  }

  lemma {:induction false} SumPaidIsPaidWithin(ids: seq<UserId>, expenses: seq<GroupExpense>)
    requires Distinct(ids)
    ensures SumPaid(ids, expenses) == PaidWithin(expenses, ids)
  {
    if expenses == [] {
      SumPaidOfNothing(ids, expenses);
    } else {
      var e := expenses[|expenses| - 1];
      SumPaidIsPaidWithin(ids, expenses[..|expenses| - 1]);
      SumPaidStep(ids, expenses);
      CountTimesDistinct(ids, e.paidBy.userId, e.amount);
    }
  }

  lemma {:induction false} SumPaidOfNothing(ids: seq<UserId>, expenses: seq<GroupExpense>)
    requires expenses == []
    ensures SumPaid(ids, expenses) == 0
  {
    if ids != [] {
      SumPaidOfNothing(ids[..|ids| - 1], expenses);
    }
  }

  lemma {:induction false} SumOwedInStep(ids: seq<UserId>, splits: seq<Split>)
    requires splits != []
    ensures var s := splits[|splits| - 1];
      SumOwedIn(ids, splits) == SumOwedIn(ids, splits[..|splits| - 1]) + CountTimes(ids, s.userId, s.amount)
  {
    if ids != [] {
      SumOwedInStep(ids[..|ids| - 1], splits);
    }
  }

  lemma {:induction false} SumOwedInOfNothing(ids: seq<UserId>, splits: seq<Split>)
    requires splits == []
    ensures SumOwedIn(ids, splits) == 0
  {
    if ids != [] {
      SumOwedInOfNothing(ids[..|ids| - 1], splits);
    }
  }

  lemma {:induction false} SumOwedInIsSplitsWithin(ids: seq<UserId>, splits: seq<Split>)
    requires Distinct(ids)
    ensures SumOwedIn(ids, splits) == SplitsWithin(splits, ids)
  {
    if splits == [] {
      SumOwedInOfNothing(ids, splits);
    } else {
      var s := splits[|splits| - 1];
      SumOwedInIsSplitsWithin(ids, splits[..|splits| - 1]);
      SumOwedInStep(ids, splits);
      CountTimesDistinct(ids, s.userId, s.amount);
    }
  }

  lemma {:induction false} SumOwedStep(ids: seq<UserId>, expenses: seq<GroupExpense>)
    requires expenses != []
    ensures SumOwed(ids, expenses) == SumOwed(ids, expenses[..|expenses| - 1]) + SumOwedIn(ids, expenses[|expenses| - 1].splits)
  {
    if ids != [] {
      SumOwedStep(ids[..|ids| - 1], expenses);
    }
  }

  lemma {:induction false} SumOwedOfNothing(ids: seq<UserId>, expenses: seq<GroupExpense>)
    requires expenses == []
    ensures SumOwed(ids, expenses) == 0
  {
    if ids != [] {
      SumOwedOfNothing(ids[..|ids| - 1], expenses);
    }
  }

  lemma {:induction false} SumOwedIsOwedWithin(ids: seq<UserId>, expenses: seq<GroupExpense>)
    requires Distinct(ids)
    ensures SumOwed(ids, expenses) == OwedWithin(expenses, ids)
  {
    if expenses == [] {
      SumOwedOfNothing(ids, expenses);
    } else {
      SumOwedIsOwedWithin(ids, expenses[..|expenses| - 1]);
      SumOwedStep(ids, expenses);
      SumOwedInIsSplitsWithin(ids, expenses[|expenses| - 1].splits);
    }
  }

  lemma {:induction false} SumBalancesOfTallied(entries: seq<BalanceEntry>, ids: seq<UserId>, expenses: seq<GroupExpense>)
    requires |entries| == |ids|
    requires forall k :: 0 <= k < |entries| ==>
      entries[k].balance == OwedBy(expenses, ids[k]) - PaidBy(expenses, ids[k])
    ensures SumBalances(entries) == SumOwed(ids, expenses) - SumPaid(ids, expenses)
  {
    if entries != [] {
      var n := |entries| - 1;
      SumBalancesOfTallied(entries[..n], ids[..n], expenses);
    }
  }

  /**
   * Conservation: the balances add up to what the active members' split rows hold minus what
   * active members paid.
   */
  lemma BalancesConserve(entries: seq<BalanceEntry>, members: seq<GroupMember>, expenses: seq<GroupExpense>)
    requires Tallied(entries, members, expenses)
    ensures var ids := IdsOf(InitEntries(members));
      SumBalances(entries) == OwedWithin(expenses, ids) - PaidWithin(expenses, ids)
  {
    var ids := IdsOf(InitEntries(members));
    SumBalancesOfTallied(entries, ids, expenses);
    SumPaidIsPaidWithin(ids, expenses);
    SumOwedIsOwedWithin(ids, expenses);
  }

  /** Everyone an expense mentions has an entry. */
  predicate AllParticipantsIn(expenses: seq<GroupExpense>, ids: seq<UserId>) {
    forall k :: 0 <= k < |expenses| ==>
      expenses[k].paidBy.userId in ids && forall t :: 0 <= t < |expenses[k].splits| ==> expenses[k].splits[t].userId in ids
  }

  /** Per expense, what the split rows hold beyond the amount. */
  function SplitSurplus(expenses: seq<GroupExpense>): Cents {
    if expenses == [] then 0
    else
      var e := expenses[|expenses| - 1];
      SplitSurplus(expenses[..|expenses| - 1]) + (SplitTotal(e.splits) - e.amount)
  }

  lemma {:induction false} SplitsWithinAll(splits: seq<Split>, ids: seq<UserId>)
    requires forall t :: 0 <= t < |splits| ==> splits[t].userId in ids
    ensures SplitsWithin(splits, ids) == SplitTotal(splits)
  {
    if splits != [] {
      SplitsWithinAll(splits[..|splits| - 1], ids);
    }
  }

  lemma {:induction false} WithinAll(expenses: seq<GroupExpense>, ids: seq<UserId>)
    requires AllParticipantsIn(expenses, ids)
    ensures OwedWithin(expenses, ids) - PaidWithin(expenses, ids) == SplitSurplus(expenses)
  {
    if expenses != [] {
      var prefix := expenses[..|expenses| - 1];
      assert AllParticipantsIn(prefix, ids) by {
        forall k | 0 <= k < |prefix| ensures prefix[k] == expenses[k] { }
      }
      WithinAll(prefix, ids);
      SplitsWithinAll(expenses[|expenses| - 1].splits, ids);
    }
  }

  /**
   * When every payer and split row belongs to an active member, the balances add up to the
   * split rows' surplus over the amounts, so to zero when every split adds up exactly.
   */
  lemma BalancesSumToSplitSurplus(entries: seq<BalanceEntry>, members: seq<GroupMember>, expenses: seq<GroupExpense>)
    requires Tallied(entries, members, expenses)
    requires AllParticipantsIn(expenses, IdsOf(InitEntries(members)))
    ensures SumBalances(entries) == SplitSurplus(expenses)
  {
    BalancesConserve(entries, members, expenses);
    WithinAll(expenses, IdsOf(InitEntries(members)));
  }

  // ---------------------------------------------------------------- the caller's own balance

  /** `splits.find(s => s.expenseAppUserId === id)`: the first row keyed by `id`, if any, counts. */
  function FirstSplitAmount(splits: seq<Split>, id: UserId): Cents {
    if splits == [] then 0
    else if splits[0].userId == id then splits[0].amount
    else FirstSplitAmount(splits[1..], id)
  }

  function OwedFirst(expenses: seq<GroupExpense>, id: UserId): Cents {
    if expenses == [] then 0
    else OwedFirst(expenses[..|expenses| - 1], id) + FirstSplitAmount(expenses[|expenses| - 1].splits, id)
  }

  datatype UserBalance = UserBalance(totalPaid: Cents, totalOwed: Cents, balance: Cents)

  /**
   * The caller's balance shown with a group and on its dashboard: over all active expenses,
   * settled or not, the amounts the caller paid and the first split row keyed by the caller.
   */
  method UserBalanceOf(expenses: seq<GroupExpense>, user: UserId) returns (b: UserBalance)
    ensures b.totalPaid == PaidBy(expenses, user)
    ensures b.totalOwed == OwedFirst(expenses, user)
    ensures b.balance == b.totalOwed - b.totalPaid
  {
    var paid, owed := 0, 0;
    var i := 0;
    while i < |expenses|
      invariant 0 <= i <= |expenses|
      invariant paid == PaidBy(expenses[..i], user) && owed == OwedFirst(expenses[..i], user)
    {
      assert expenses[..i + 1][..i] == expenses[..i];
      if expenses[i].paidBy.userId == user {
        paid := paid + expenses[i].amount;
      }
      owed := owed + FirstSplitAmount(expenses[i].splits, user);
      i := i + 1;
    }
    assert expenses[..i] == expenses;
    b := UserBalance(paid, owed, owed - paid);
  }

  predicate AtMostOneRow(splits: seq<Split>, id: UserId) {
    forall i, j :: 0 <= i < j < |splits| && splits[i].userId == id ==> splits[j].userId != id
  }

  lemma {:induction false} FirstSplitIsAll(splits: seq<Split>, id: UserId)
    requires AtMostOneRow(splits, id)
    ensures FirstSplitAmount(splits, id) == OwedIn(splits, id)
  {
    if splits != [] {
      assert AtMostOneRow(splits[1..], id) by {
        forall i, j | 0 <= i < j < |splits[1..]| && splits[1..][i].userId == id
          ensures splits[1..][j].userId != id
        {
          assert splits[1..][i] == splits[i + 1] && splits[1..][j] == splits[j + 1];
        }
      }
      FirstSplitIsAll(splits[1..], id);
      OwedInCons(splits, id);
      if splits[0].userId == id {
        OwedInNone(splits[1..], id);
      }
    }
  }

  lemma {:induction false} OwedInCons(splits: seq<Split>, id: UserId)
    requires splits != []
    ensures OwedIn(splits, id) == (if splits[0].userId == id then splits[0].amount else 0) + OwedIn(splits[1..], id)
  {
    if |splits| > 1 {
      var n := |splits| - 1;
      assert splits[..n][1..] == splits[1..][..n - 1];
      OwedInCons(splits[..n], id);
    } else {
      assert splits[1..] == [];
      assert splits[..0] == [];
    }
  }

  lemma {:induction false} OwedInNone(splits: seq<Split>, id: UserId)
    requires forall t :: 0 <= t < |splits| ==> splits[t].userId != id
    ensures OwedIn(splits, id) == 0
  {
    if splits != [] {
      OwedInNone(splits[..|splits| - 1], id);
    }
  }

  /**
   * With at most one row per user in each split, the caller's balance over the unsettled
   * expenses agrees with the caller's entry in the settlement calculation.
   */
  lemma {:induction false} UserBalanceAgreesWithEntry(expenses: seq<GroupExpense>, id: UserId)
    requires forall k :: 0 <= k < |expenses| ==> AtMostOneRow(expenses[k].splits, id)
    ensures OwedFirst(expenses, id) == OwedBy(expenses, id)
  {
    if expenses != [] {
      var prefix := expenses[..|expenses| - 1];
      assert forall k :: 0 <= k < |prefix| ==> prefix[k] == expenses[k];
      UserBalanceAgreesWithEntry(prefix, id);
      FirstSplitIsAll(expenses[|expenses| - 1].splits, id);
    }
  }

  /** A user with two rows in one split is counted once by the caller's balance and twice by the table. */
  lemma DuplicateRowCountedDifferently(e: GroupExpense, id: UserId)
    requires |e.splits| == 2 && e.splits[0].userId == id && e.splits[1].userId == id
    requires e.splits[0].amount == 100 && e.splits[1].amount == 100
    ensures OwedFirst([e], id) == 100 && OwedBy([e], id) == 200
  {
    assert [e][..0] == [];
    assert e.splits[..1][..0] == [];
    assert OwedIn(e.splits[..1], id) == 100;
    assert OwedIn(e.splits, id) == 200;
  }
}
