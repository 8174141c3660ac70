/**
 * How the add-expense handler turns a request into the stored split rows: an equal split over
 * the active members with the rounding remainder on the last row, percentages applied to the
 * amount, or the rows the caller supplied.
 */
module SplitCalculator {
  import opened Results
  import opened Money
  import opened ExpenseGroupModel
  import opened GroupExpenseModel

  /** A split row as a request supplies it; `percentage` may be absent. */
  datatype SplitInput = SplitInput(
    userId: UserId, name: string, email: string,
    amount: Cents, percentage: Option<real>, isPaid: bool, paidAt: Option<int>)

  /** The row as the schema stores it: an absent percentage defaults to 0. */
  function Stored(s: SplitInput): (r: Split)
    ensures r.userId == s.userId && r.amount == s.amount && r.percentage == s.percentage.GetOr(0.0)
  {
    Split(s.userId, s.name, s.email, s.amount, s.percentage.GetOr(0.0), s.isPaid, s.paidAt)
  }

  function StoredAll(rows: seq<SplitInput>): (r: seq<Split>)
    ensures |r| == |rows| && forall k :: 0 <= k < |rows| ==> r[k] == Stored(rows[k])
  {
    seq(|rows|, k requires 0 <= k < |rows| => Stored(rows[k]))
  }

  /** `members.filter(m => m.isActive)`. */
  function ActiveMembers(members: seq<GroupMember>): (r: seq<GroupMember>)
    ensures |r| <= |members|
    ensures forall m :: m in r <==> m in members && m.isActive
  {
    if members == [] then []
    else
      var rest := ActiveMembers(members[..|members| - 1]);
      var last := members[|members| - 1];
      assert members == members[..|members| - 1] + [last];
      if last.isActive then rest + [last] else rest
  }

  /**
   * The filter keeps the members' order: filtering a concatenation concatenates the filtered
   * parts, and a single member is kept exactly when active.
   */
  lemma {:induction false} ActiveMembersInOrder(a: seq<GroupMember>, b: seq<GroupMember>)
    ensures ActiveMembers(a + b) == ActiveMembers(a) + ActiveMembers(b)
    ensures |b| == 1 ==> ActiveMembers(b) == (if b[0].isActive then b else [])
  {
    if b != [] {
      var b' := b[..|b| - 1];
      assert (a + b)[..|a + b| - 1] == a + b';
      assert b[..|b| - 1] == b';
      ActiveMembersInOrder(a, b');
    } else {
      assert a + b == a;
    }
    if |b| == 1 {
      assert b[..0] == [];
    }
  }

  // ---------------------------------------------------------------- equal

  /** The per-person share: the amount divided by the head count, rounded down to the cent. */
  function PerPerson(amount: Cents, n: nat): Cents
    requires n > 0
  {
    amount / n
  }

  /** The rounding remainder, which the last row carries. */
  function Remainder(amount: Cents, n: nat): Cents
    requires n > 0
  {
    amount % n
  }

  /** The percentage each row records: 100 / n rounded to two decimals. */
  function EqualPercentage(n: nat): real
    requires n > 0
  {
    Round2(100.0 / n as real)
  }

  function EqualRow(m: GroupMember, amount: Cents, n: nat, isLast: bool, payer: UserId, now: int): Split
    requires n > 0
  {
    Split(m.userId, m.name, m.email,
      if isLast then PerPerson(amount, n) + Remainder(amount, n) else PerPerson(amount, n),
      EqualPercentage(n),
      m.userId == payer,
      if m.userId == payer then Some(now) else None)
  }

  /** The Equal split over the given (active) members, in member order. */
  function EqualSplits(active: seq<GroupMember>, amount: Cents, payer: UserId, now: int): (r: seq<Split>)
    requires |active| > 0
    ensures |r| == |active|
  {
    seq(|active|, k requires 0 <= k < |active| => EqualRow(active[k], amount, |active|, k == |active| - 1, payer, now))
  }

  lemma {:induction false} SplitTotalOfEqualPrefix(r: seq<Split>, per: Cents, k: nat)
    requires k <= |r|
    requires forall i :: 0 <= i < k ==> r[i].amount == per
    ensures SplitTotal(r[..k]) == k * per
  {
    if k > 0 {
      assert r[..k][..k - 1] == r[..k - 1];
      SplitTotalOfEqualPrefix(r, per, k - 1);
    }
  }

  lemma {:induction false} SplitTotalSplit(r: seq<Split>)
    requires |r| > 0
    ensures SplitTotal(r) == SplitTotal(r[..|r| - 1]) + r[|r| - 1].amount
  {
  }

  /**
   * The Equal split adds up to the amount exactly, every row but the last holds the rounded-down
   * share, the last holds the share plus the remainder (less than the head count), and exactly
   * the payer's rows are marked paid.
   */
  lemma EqualSplitsSumToAmount(active: seq<GroupMember>, amount: Cents, payer: UserId, now: int)
    requires |active| > 0
    ensures var r := EqualSplits(active, amount, payer, now);
      var n := |active|;
      && SplitTotal(r) == amount
      && (forall k :: 0 <= k < n - 1 ==> r[k].amount == amount / n)
      && 0 <= r[n - 1].amount - amount / n < n
      && (forall k :: 0 <= k < n ==> r[k].userId == active[k].userId && (r[k].isPaid <==> active[k].userId == payer))
  {
    var r := EqualSplits(active, amount, payer, now);
    var n := |active|;
    SplitTotalOfEqualPrefix(r, amount / n, n - 1);
    SplitTotalSplit(r);
  }

  /** The rows of an Equal split never differ by a cent or more than the head count allows. */
  lemma EqualSharesAreFair(active: seq<GroupMember>, amount: Cents, payer: UserId, now: int)
    requires |active| > 0
    ensures var r := EqualSplits(active, amount, payer, now);
      forall i, j :: 0 <= i < |r| && 0 <= j < |r| ==> Abs(r[i].amount - r[j].amount) < |active|
  {
    EqualSplitsSumToAmount(active, amount, payer, now);
  }

  /** Rs 100.00 over three members is stored as 33.33, 33.33 and 33.34. */
  lemma EqualSplitThreeWays(a: GroupMember, b: GroupMember, c: GroupMember, payer: UserId, now: int)
    ensures var r := EqualSplits([a, b, c], 10000, payer, now);
      [r[0].amount, r[1].amount, r[2].amount] == [3333, 3333, 3334]
  {
  }

  /** Two paise over three members puts both paise on the last row. */
  lemma EqualSplitTinyAmount(a: GroupMember, b: GroupMember, c: GroupMember, payer: UserId, now: int)
    ensures var r := EqualSplits([a, b, c], 2, payer, now);
      [r[0].amount, r[1].amount, r[2].amount] == [0, 0, 2]
  {
  }

  // ---------------------------------------------------------------- percentage

  /** The percentage split keeps each supplied row and sets its amount to the rounded share. */
  function PercentageRow(s: SplitInput, amount: Cents, p: real): Split {
    Split(s.userId, s.name, s.email, RoundHalfUp(amount as real * p / 100.0), p, s.isPaid, s.paidAt)
  }

  predicate AllHavePercentage(rows: seq<SplitInput>) {
    forall k :: 0 <= k < |rows| ==> rows[k].percentage.Some?
  }

  /**
   * The Percentage split; a row without a percentage gets a NaN amount, which the save refuses,
   * so the whole split is then absent.
   */
  function PercentageSplits(rows: seq<SplitInput>, amount: Cents): (r: Option<seq<Split>>)
    ensures r.Some? <==> AllHavePercentage(rows)
    ensures r.Some? ==> |r.value| == |rows|
  {
    if AllHavePercentage(rows) then
      Some(seq(|rows|, k requires 0 <= k < |rows| => PercentageRow(rows[k], amount, rows[k].percentage.value)))
    else None
  }

  /**
   * Row k of a percentage split is row k of the request with its amount replaced by
   * `Math.round(amount * percentage / 100)` in cents; every other field is kept.
   */
  lemma PercentageRowsKeepFields(rows: seq<SplitInput>, amount: Cents, k: nat)
    requires AllHavePercentage(rows) && k < |rows|
    ensures var r := PercentageSplits(rows, amount).value;
      && r[k].amount == RoundHalfUp(amount as real * rows[k].percentage.value / 100.0)
      && r[k].percentage == rows[k].percentage.value
      && r[k].userId == rows[k].userId && r[k].name == rows[k].name && r[k].email == rows[k].email
      && r[k].isPaid == rows[k].isPaid && r[k].paidAt == rows[k].paidAt
  {
  }

  /** The amounts of a percentage split differ from the exact shares by at most half a cent a row. */
  lemma {:induction false} PercentageDrift(rows: seq<SplitInput>, amount: Cents)
    requires AllHavePercentage(rows)
    ensures var r := PercentageSplits(rows, amount).value;
      var exact := amount as real * PercentageTotal(r) / 100.0;
      exact - |rows| as real * 0.5 <= SplitTotal(r) as real <= exact + |rows| as real * 0.5
  {
    if rows != [] {
      var prefix := rows[..|rows| - 1];
      var r := PercentageSplits(rows, amount).value;
      var q := PercentageSplits(prefix, amount).value;
      assert AllHavePercentage(prefix) by {
        forall k | 0 <= k < |prefix| ensures prefix[k].percentage.Some? {
          assert prefix[k] == rows[k];
        }
      }
      PercentageDrift(prefix, amount);
      assert r[..|r| - 1] == q by {
        forall k | 0 <= k < |q| ensures r[k] == q[k] {
          assert prefix[k] == rows[k];
        }
      }
      var p := rows[|rows| - 1].percentage.value;
      assert r[|r| - 1] == PercentageRow(rows[|rows| - 1], amount, p);
      assert PercentageTotal(r) == PercentageTotal(q) + p;
      assert amount as real * PercentageTotal(r) / 100.0
          == amount as real * PercentageTotal(q) / 100.0 + amount as real * p / 100.0;
    }
  }

  /**
   * The two save hooks disagree: rows of 33.3 %, 33.3 % and 33.35 % of Rs 100.00 pass the
   * percentage hook (99.95 is within 0.1 of 100) but store 33.30, 33.30 and 33.35, 99.95 in
   * all, which the split-sum hook refuses.
   */
  lemma PercentageHookAcceptsWhatSumHookRejects(a: SplitInput, b: SplitInput, c: SplitInput)
    requires a.percentage == b.percentage == Some(33.3) && c.percentage == Some(33.35)
    ensures var r := PercentageSplits([a, b, c], 10000).value;
      && RealAbs(PercentageTotal(r) - 100.0) <= PercentageTolerance
      && SplitTotal(r) == 9995
      && Abs(SplitTotal(r) - 10000) > SplitTolerance
  {
    var r := PercentageSplits([a, b, c], 10000).value;
    assert 10000.0 * 33.3 / 100.0 == 3330.0;
    assert 10000.0 * 33.35 / 100.0 == 3335.0;
    assert RoundHalfUp(3330.0) == 3330;
    assert RoundHalfUp(3335.0) == 3335;
    assert r[0].amount == 3330 && r[1].amount == 3330 && r[2].amount == 3335;
    assert r[..2][..1] == [r[0]] && r[..1][..0] == [];
    assert SplitTotal(r[..1]) == 3330;
    assert r[..2] == r[..|r| - 1];
    assert SplitTotal(r[..2]) == 6660;
    assert PercentageTotal(r[..1]) == 33.3;
    assert PercentageTotal(r[..2]) == 66.6;
  }

  // ---------------------------------------------------------------- dispatch

  /**
   * The split rows for a new expense under the chosen method (`splitMethod || group.defaultSplitMethod`),
   * or why the request is refused: no active member for Equal, no rows for the other methods,
   * a row without a percentage for Percentage.
   */
  function ComputeSplits(members: seq<GroupMember>, splitMethod: SplitMethod, amount: Cents,
                         rows: seq<SplitInput>, payer: UserId, now: int): (r: Result<seq<Split>>)
    ensures splitMethod == Equal ==> (r.Ok? <==> ActiveMembers(members) != [])
    ensures splitMethod != Equal ==> (r.Ok? <==> rows != [] && (splitMethod == Percentage ==> AllHavePercentage(rows)))
    ensures r.Fail? ==> r.failure == (if splitMethod == Percentage && rows != [] then SaveRejected else BadRequest)
    ensures r.Ok? && (splitMethod == Custom || splitMethod == Exact) ==> r.value == StoredAll(rows)
    ensures r.Ok? && splitMethod == Equal ==> SplitTotal(r.value) == amount
    ensures r.Ok? && splitMethod == Equal ==> r.value == EqualSplits(ActiveMembers(members), amount, payer, now)
    ensures r.Ok? && splitMethod == Percentage ==> r.value == PercentageSplits(rows, amount).value
  {
    match splitMethod
    case Equal =>
      var active := ActiveMembers(members);
      if active == [] then Fail(BadRequest)
      else
        EqualSplitsSumToAmount(active, amount, payer, now);
        Ok(EqualSplits(active, amount, payer, now))
    case Custom => if rows == [] then Fail(BadRequest) else Ok(StoredAll(rows))
    case Exact => if rows == [] then Fail(BadRequest) else Ok(StoredAll(rows))
    case Percentage =>
      if rows == [] then Fail(BadRequest)
      else match PercentageSplits(rows, amount)
        case Some(r) => Ok(r)
        case None => Fail(SaveRejected)
  }
}
