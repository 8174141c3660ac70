/** The budget document: its fields, their bounds, the date-order hook and the unique index. */
module BudgetModel {
  import opened Results
  import opened Money
  import opened Text

  datatype Period = Monthly | Yearly | Weekly | CustomPeriod

  const DefaultPeriod: Period := Monthly
  const DefaultAlertThreshold: real := 80.0
  const MaxBudgetNotes: nat := 500

  /** Dates are instants in milliseconds; `alertThreshold` is a percentage. */
  datatype Budget = Budget(
    budgetId: string, userId: string, category: string, categoryId: Option<string>,
    amount: Cents, period: Period, startDate: int, endDate: int, rollover: bool,
    alertThreshold: real, isActive: bool, template: Option<string>, notes: Option<string>)

  /** The schema's field rules: a required, trimmed category, a non-negative amount, a threshold in [0, 100], short notes. */
  predicate FieldsValid(b: Budget) {
    b.category != [] && b.amount >= 0 && 0.0 <= b.alertThreshold <= 100.0
    && (b.notes.None? || |b.notes.value| <= MaxBudgetNotes)
  }

  /** The pre-save hook: an end before the start is refused; equal dates pass. */
  predicate DatesOrdered(b: Budget) {
    !(b.endDate < b.startDate)
  }

  /** The trim setter on `category`. */
  function Normalized(b: Budget): Budget {
    b.(category := Trim(b.category))
  }

  /** Saving a new budget: the setter, then the field validators, then the date-order hook. */
  function SaveBudget(b: Budget): (r: Result<Budget>)
    ensures r.Ok? <==> FieldsValid(Normalized(b)) && DatesOrdered(b)
    ensures r.Ok? ==> r.value == Normalized(b) && r.value.startDate <= r.value.endDate
    ensures r.Fail? ==> r.failure == SaveRejected
  {
    var n := Normalized(b);
    if FieldsValid(n) && DatesOrdered(n) then Ok(n) else Fail(SaveRejected)
  }

  /** A saved budget saves again unchanged. */
  lemma SaveIsIdempotent(b: Budget)
    requires SaveBudget(b).Ok?
    ensures SaveBudget(SaveBudget(b).value) == SaveBudget(b)
  {
    TrimIdempotent(b.category);
  }

  /** The equal-dates edge of the hook: a one-instant budget is accepted. */
  lemma EqualDatesAreAccepted(b: Budget)
    requires FieldsValid(Normalized(b)) && b.startDate == b.endDate
    ensures SaveBudget(b).Ok?
  {
  }

  // ---------------------------------------------------------------- the unique index

  /** The compound unique index `(expenseAppUserId, category, period, startDate)`. */
  datatype IndexKey = IndexKey(userId: string, category: string, period: Period, startDate: int)

  function KeyOf(b: Budget): IndexKey {
    IndexKey(b.userId, b.category, b.period, b.startDate)
  }

  /** No two documents, active or not, share an index key. */
  predicate UniqueIndex(store: seq<Budget>) {
    forall i, j :: 0 <= i < j < |store| ==> KeyOf(store[i]) != KeyOf(store[j])
  }

  /** The index lets `b` join the documents `others`. */
  predicate IndexAdmits(others: seq<Budget>, b: Budget) {
    forall k :: 0 <= k < |others| ==> KeyOf(others[k]) != KeyOf(b)
  }

  lemma AppendKeepsUniqueIndex(store: seq<Budget>, b: Budget)
    requires UniqueIndex(store) && IndexAdmits(store, b)
    ensures UniqueIndex(store + [b])
  {
  }

  lemma ReplaceKeepsUniqueIndex(store: seq<Budget>, k: nat, b: Budget)
    requires k < |store| && UniqueIndex(store)
    requires IndexAdmits(store[..k] + store[k + 1..], b)
    ensures UniqueIndex(store[k := b])
  {
    var others := store[..k] + store[k + 1..];
    var updated := store[k := b];
    forall i, j | 0 <= i < j < |updated|
      ensures KeyOf(updated[i]) != KeyOf(updated[j])
    {
      if i == k {
        assert others[j - 1] == store[j];
      } else if j == k {
        assert others[i] == store[i];
      }
    }
  }
}
