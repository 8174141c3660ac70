/**
 * The group expense document (a ledger entry with its frozen split) and the checks a save
 * applies: field bounds, the split-sum hook and the percentage-sum hook.
 */
module GroupExpenseModel {
  import opened Results
  import opened Text
  import opened Money
  import opened ExpenseGroupModel

  /** One member's share of an expense, as stored. */
  datatype Split = Split(
    userId: UserId, name: string, email: string,
    amount: Cents, percentage: real, isPaid: bool, paidAt: Option<int>)

  datatype Approval = Approval(userId: UserId, approvedAt: int)

  datatype GroupExpense = GroupExpense(
    expenseId: string,
    groupId: string,
    addedBy: UserId,
    expenseName: string,
    description: string,
    amount: Cents,
    currency: string,
    category: string,
    date: int,
    splitMethod: SplitMethod,
    splits: seq<Split>,
    paidBy: UserRef,
    isSettled: bool,
    settledAt: Option<int>,
    requiresApproval: bool,
    approvedBy: seq<Approval>,
    isActive: bool)

  const MinAmount: Cents := 1   // 0.01
  const MaxExpenseName: nat := 200
  const MaxExpenseDescription: nat := 1000
  const SplitTolerance: Cents := 1   // 0.01
  const PercentageTolerance: real := 0.1

  /** `splits.reduce((sum, s) => sum + s.amount, 0)`. */
  function SplitTotal(splits: seq<Split>): Cents {
    if splits == [] then 0 else SplitTotal(splits[..|splits| - 1]) + splits[|splits| - 1].amount
  }

  /** `splits.reduce((sum, s) => sum + (s.percentage || 0), 0)`; a stored percentage defaults to 0. */
  function PercentageTotal(splits: seq<Split>): real {
    if splits == [] then 0.0
    else PercentageTotal(splits[..|splits| - 1]) + splits[|splits| - 1].percentage
  }

  function RealAbs(x: real): real {
    if x < 0.0 then -x else x
  }

  predicate SplitValid(s: Split) {
    && s.userId != [] && s.name != [] && s.email != []
    && s.amount >= 0
    && 0.0 <= s.percentage <= 100.0
  }

  /** The field-level validators of the schema. */
  predicate FieldsValid(e: GroupExpense) {
    && e.expenseId != [] && e.groupId != [] && e.addedBy != []
    && 0 < |e.expenseName| <= MaxExpenseName
    && |e.description| <= MaxExpenseDescription
    && e.amount >= MinAmount
    && |e.currency| <= MaxCurrency
    && e.category != []
    && (forall k :: 0 <= k < |e.splits| ==> SplitValid(e.splits[k]))
    && e.paidBy.userId != [] && e.paidBy.name != [] && e.paidBy.email != []
  }

  /** Split-sum hook: a non-empty split must add up to the amount within 0.01; an empty one is not checked. */
  predicate SplitSumValid(e: GroupExpense) {
    |e.splits| > 0 ==> Abs(SplitTotal(e.splits) - e.amount) <= SplitTolerance
  }

  /** Percentage hook: a non-empty Percentage split must add up to 100 within 0.1. */
  predicate PercentageSumValid(e: GroupExpense) {
    (e.splitMethod == Percentage && |e.splits| > 0) ==>
      RealAbs(PercentageTotal(e.splits) - 100.0) <= PercentageTolerance
  }

  predicate SaveValid(e: GroupExpense) {
    FieldsValid(e) && SplitSumValid(e) && PercentageSumValid(e)
  }

  /** The trim setters of the schema, applied before validation. */
  function Normalized(e: GroupExpense): GroupExpense {
    e.(expenseName := Trim(e.expenseName), category := Trim(e.category))
  }

  /** `expense.save()`: the document as stored, or SaveRejected when a validator or hook refuses it. */
  function SaveExpense(e: GroupExpense): (r: Result<GroupExpense>)
    ensures r.Ok? <==> SaveValid(Normalized(e))
    ensures r.Ok? ==> r.value == Normalized(e)
    ensures r.Fail? ==> r.failure == SaveRejected
  {
    if SaveValid(Normalized(e)) then Ok(Normalized(e)) else Fail(SaveRejected)
  }

  /**
   * A new expense document with the schema's defaults for the fields the handler leaves out:
   * not settled, no settlement stamp, no approvals, active.
   */
  function NewExpense(
    expenseId: string, groupId: string, addedBy: UserId, expenseName: string, description: string,
    amount: Cents, currency: string, category: string, date: int, splitMethod: SplitMethod,
    splits: seq<Split>, paidBy: UserRef, requiresApproval: bool): (e: GroupExpense)
    ensures !e.isSettled && e.settledAt == None && e.isActive && e.approvedBy == []
    ensures e.expenseId == expenseId && e.groupId == groupId && e.amount == amount
    ensures e.splits == splits && e.paidBy == paidBy && e.requiresApproval == requiresApproval
  {
    GroupExpense(expenseId, groupId, addedBy, expenseName, description, amount, currency, category,
      date, splitMethod, splits, paidBy, false, None, requiresApproval, [], true)
  }

  /** An expense whose split list is empty skips the split-sum hook whatever its amount. */
  lemma EmptySplitSkipsSumCheck(e: GroupExpense)
    requires e.splits == []
    ensures SplitSumValid(e) && PercentageSumValid(e)
  {
  }

  /** The split-sum hook refuses exactly the non-empty splits that are off by more than one cent. */
  lemma SplitSumRejects(e: GroupExpense)
    ensures !SplitSumValid(e) <==> |e.splits| > 0 && (SplitTotal(e.splits) > e.amount + 1 || SplitTotal(e.splits) < e.amount - 1)
  {
  }

  /** A save stores a document that still passes every check: saving it again changes nothing. */
  lemma {:induction false} SaveIsIdempotent(e: GroupExpense)
    requires SaveExpense(e).Ok?
    ensures SaveExpense(SaveExpense(e).value) == SaveExpense(e)
  {
    TrimIdempotent(e.expenseName);
    TrimIdempotent(e.category);
  }
}
