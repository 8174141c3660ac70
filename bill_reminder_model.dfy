/** The bill-reminder document: its enums and defaults, field bounds and the next-due-date hook. */
module BillReminderModel {
  import opened Results
  import opened Money
  import opened Text
  import opened Calendar

  datatype Frequency = OneTime | Monthly | Quarterly | Yearly | Weekly | BiWeekly

  datatype BillCategory =
    Utilities | Insurance | RentMortgage | CreditCard | Loan | Subscription | Medical | Education | OtherBill

  const DefaultFrequency: Frequency := OneTime
  const DefaultBillCategory: BillCategory := OtherBill
  const MaxBillName: nat := 100
  const MaxBillNotes: nat := 500

  /** The three `reminderSent` flags: `"24h"`, `"7d"` and `"1d"`. */
  datatype ReminderFlags = ReminderFlags(sent24h: bool, sent7d: bool, sent1d: bool)

  const NoneSent: ReminderFlags := ReminderFlags(false, false, false)

  /** Instants are milliseconds; `nextDueDate` stays null for a one-time bill. */
  datatype Bill = Bill(
    reminderId: string, userId: string, billName: string, amount: Cents, dueDate: int,
    frequency: Frequency, category: BillCategory, isPaid: bool, paidDate: Option<int>,
    notes: Option<string>, reminderSent: ReminderFlags, nextDueDate: Option<int>, isActive: bool)

  /** The schema's field rules: a required, trimmed name of at most 100 characters, a non-negative amount, short notes. */
  predicate FieldsValid(b: Bill) {
    b.billName != [] && |b.billName| <= MaxBillName && b.amount >= 0
    && (b.notes.None? || |b.notes.value| <= MaxBillNotes)
  }

  /** The due date one period after `due`. */
  function NextDueDate(due: int, f: Frequency): (r: int)
    requires f != OneTime
    ensures f == Weekly ==> r == due + 7 * DayMs
    ensures f == BiWeekly ==> r == due + 14 * DayMs
    ensures f == Monthly ==> r == AddMonths(due, 1)
    ensures f == Quarterly ==> r == AddMonths(due, 3)
    ensures f == Yearly ==> r == AddMonths(due, 12)
    ensures TimeOfDay(r) == TimeOfDay(due)
  {
    match f
    case Weekly => AddDays(due, 7); due + 7 * DayMs
    case BiWeekly => AddDays(due, 14); due + 14 * DayMs
    case Monthly => AddMonths(due, 1)
    case Quarterly => AddMonths(due, 3)
    case Yearly => AddMonths(due, 12)
  }

  /** The document after the pre-save hook: a recurring bill's next due date follows from its due date. */
  function AfterHook(b: Bill): (r: Bill)
    ensures r.(nextDueDate := b.nextDueDate) == b
    ensures b.frequency == OneTime ==> r == b
    ensures b.frequency != OneTime ==> r.nextDueDate.Some? && TimeOfDay(r.nextDueDate.value) == TimeOfDay(b.dueDate)
    ensures b.frequency == Weekly ==> r.nextDueDate == Some(b.dueDate + 7 * DayMs)
    ensures b.frequency == BiWeekly ==> r.nextDueDate == Some(b.dueDate + 14 * DayMs)
  {
    if b.frequency != OneTime then b.(nextDueDate := Some(NextDueDate(b.dueDate, b.frequency))) else b
  }

  /** The pre-save hook as written: a switch on the frequency advances a copy of the due date. */
  method RunSaveHook(b: Bill) returns (r: Bill)
    ensures r == AfterHook(b)
  {
    r := b;
    if b.frequency != OneTime {
      var nextDate := b.dueDate;
      match b.frequency {
        case Weekly => nextDate := nextDate + 7 * DayMs;
        case BiWeekly => nextDate := nextDate + 14 * DayMs;
        case Monthly => nextDate := AddMonths(nextDate, 1);
        case Quarterly => nextDate := AddMonths(nextDate, 3);
        case Yearly => nextDate := AddMonths(nextDate, 12);
      }
      r := b.(nextDueDate := Some(nextDate));
    }
  }

  /** Recomputing is idempotent: the hook depends only on the due date and the frequency. */
  lemma HookIsIdempotent(b: Bill)
    ensures AfterHook(AfterHook(b)) == AfterHook(b)
  {
  }

  /** A one-time bill keeps its (default null) next due date. */
  lemma OneTimeKeepsNextDueDate(b: Bill)
    requires b.frequency == OneTime
    ensures AfterHook(b).nextDueDate == b.nextDueDate
  {
  }

  /** Saving: the trim setter on the name, the field validators, then the hook. */
  function SaveBill(b: Bill): (r: Result<Bill>)
    ensures r.Ok? <==> FieldsValid(b.(billName := Trim(b.billName)))
    ensures r.Ok? ==> r.value == AfterHook(b.(billName := Trim(b.billName)))
    ensures r.Fail? ==> r.failure == SaveRejected
  {
    var n := b.(billName := Trim(b.billName));
    if FieldsValid(n) then Ok(AfterHook(n)) else Fail(SaveRejected)
  }
}
