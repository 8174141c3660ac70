/**
 * The hourly reminder run: every unpaid, active bill due between midnight today and midnight
 * seven days later may get one reminder e-mail (seven days, one day or on the day), and the
 * matching `reminderSent` flag is set once the e-mail went out.
 */
module BillReminderScheduler {
  import opened Results
  import opened Calendar
  import opened BillReminderModel
  import opened BillReminderController

  /** The reminder kinds: `"7d"`, `"1d"` and `"24h"`. */
  datatype ReminderType = Week | Day | SameDay

  function Flag(f: ReminderFlags, t: ReminderType): bool {
    match t
    case Week => f.sent7d
    case Day => f.sent1d
    case SameDay => f.sent24h
  }

  /** `bill.reminderSent[type] = true`. */
  function WithFlag(f: ReminderFlags, t: ReminderType): (r: ReminderFlags)
    ensures Flag(r, t)
    ensures forall u :: u != t ==> Flag(r, u) == Flag(f, u)
  {
    match t
    case Week => f.(sent7d := true)
    case Day => f.(sent1d := true)
    case SameDay => f.(sent24h := true)
  }

  /** Whole days from today to the due date, both taken at midnight. */
  function DaysUntilDue(due: int, now: int): int {
    DayNumber(due) - DayNumber(now)
  }

  /** The query of the run: unpaid, active, due in [midnight today, midnight seven days later]. */
  predicate Considered(b: Bill, now: int) {
    !b.isPaid && b.isActive && StartOfDay(now) <= b.dueDate <= StartOfDay(now) + 7 * DayMs
  }

  /** A considered bill is due today or in at most seven days. */
  lemma ConsideredIsDueWithinAWeek(b: Bill, now: int)
    requires Considered(b, now)
    ensures 0 <= DaysUntilDue(b.dueDate, now) <= 7
  {
    var n := DayNumber(now);
    AddDays(StartOfDay(now), 7);
    DayOfMidnightPlus(n, 0);
    DayNumberIsMonotone(StartOfDay(now), b.dueDate);
    DayNumberIsMonotone(b.dueDate, StartOfDay(now) + 7 * DayMs);
  }

  lemma DayNumberIsMonotone(s: int, t: int)
    requires s <= t
    ensures DayNumber(s) <= DayNumber(t)
  {
    assert s == DayNumber(s) * DayMs + TimeOfDay(s);
    assert t == DayNumber(t) * DayMs + TimeOfDay(t);
    DaysScale(DayNumber(t) + 1, DayNumber(s));
  }

  lemma DaysScale(a: int, b: int)
    ensures a <= b ==> a * DayMs <= b * DayMs
  {
  }

  /**
   * A bill due seven days ahead at any time after midnight lies outside the query, so a
   * seven-day reminder goes out only for bills due exactly at midnight.
   */
  lemma SevenDayReminderNeedsMidnightDue(b: Bill, now: int)
    requires DaysUntilDue(b.dueDate, now) == 7 && TimeOfDay(b.dueDate) > 0
    ensures !Considered(b, now)
  {
    assert b.dueDate == DayNumber(b.dueDate) * DayMs + TimeOfDay(b.dueDate);
    assert StartOfDay(now) + 7 * DayMs == (DayNumber(now) + 7) * DayMs;
  }

  /**
   * The reminder a bill is due for: seven days out without the 7d flag, else one day out
   * without the 1d flag, else due today without the 24h flag.
   */
  function SelectReminder(b: Bill, now: int): (r: Option<ReminderType>)
    ensures r == Some(Week) <==> DaysUntilDue(b.dueDate, now) == 7 && !b.reminderSent.sent7d
    ensures r == Some(Day) <==> DaysUntilDue(b.dueDate, now) == 1 && !b.reminderSent.sent1d
    ensures r == Some(SameDay) <==> DaysUntilDue(b.dueDate, now) == 0 && !b.reminderSent.sent24h
    ensures r.Some? ==> !Flag(b.reminderSent, r.value)
  {
    var d := DaysUntilDue(b.dueDate, now);
    if d == 7 && !b.reminderSent.sent7d then Some(Week)
    else if d == 1 && !b.reminderSent.sent1d then Some(Day)
    else if d == 0 && !b.reminderSent.sent24h then Some(SameDay)
    else None
  }

  /** The user's address the e-mail goes to, when the user exists and has one. */
  predicate HasEmail(emails: map<string, string>, user: string) {
    user in emails && emails[user] != []
  }

  /**
   * One bill after the run. `delivered` holds the bills whose e-mail the mail service accepts;
   * a refused e-mail or a refused save leaves the bill as it was.
   */
  function Processed(b: Bill, now: int, emails: map<string, string>, delivered: set<string>): (r: Bill)
    ensures r.reminderId == b.reminderId && r.dueDate == b.dueDate
  {
    if !Considered(b, now) || !HasEmail(emails, b.userId) then b
    else match SelectReminder(b, now)
      case None => b
      case Some(t) =>
        if b.reminderId !in delivered then b
        else match SaveBill(b.(reminderSent := WithFlag(b.reminderSent, t)))
          case Ok(saved) => saved
          case Fail(_) => b
  }

  /**
   * `Processed` as the run is written: `reminderSent` is a schema-less object, so setting one of
   * its keys is not recorded as a change and the save writes the bill without the new flag
   * (the save hook's next due date is still written).
   */
  function ProcessedAsWritten(b: Bill, now: int, emails: map<string, string>, delivered: set<string>): (r: Bill)
    ensures r.reminderId == b.reminderId && r.dueDate == b.dueDate
    ensures r.reminderSent == b.reminderSent && r.isPaid == b.isPaid && r.isActive == b.isActive
  {
    if !Considered(b, now) || !HasEmail(emails, b.userId) then b
    else match SelectReminder(b, now)
      case None => b
      case Some(t) =>
        if b.reminderId !in delivered then b
        else match SaveBill(b.(reminderSent := WithFlag(b.reminderSent, t)))
          case Ok(saved) => saved.(reminderSent := b.reminderSent)
          case Fail(_) => b
  }

  /**
   * As written, every later run of the same day selects the same reminder for the same bill
   * again, so the e-mail goes out once an hour until the day changes.
   */
  lemma AsWrittenRerunRepeats(b: Bill, now: int, later: int, emails: map<string, string>, delivered: set<string>)
    requires DayNumber(later) == DayNumber(now)
    requires Considered(b, now) && SelectReminder(b, now).Some?
    ensures var r := ProcessedAsWritten(b, now, emails, delivered);
      Considered(r, later) && SelectReminder(r, later) == SelectReminder(b, now)
  {
    assert StartOfDay(later) == StartOfDay(now);
  }

  /** A run sets at most one flag of a bill, never clears one, and only after the e-mail went out. */
  lemma ProcessedSetsAtMostOneFlag(b: Bill, now: int, emails: map<string, string>, delivered: set<string>)
    ensures var r := Processed(b, now, emails, delivered);
      || r.reminderSent == b.reminderSent
      || (SelectReminder(b, now).Some? && b.reminderId in delivered && HasEmail(emails, b.userId)
          && r.reminderSent == WithFlag(b.reminderSent, SelectReminder(b, now).value))
    ensures forall t :: Flag(b.reminderSent, t) ==> Flag(Processed(b, now, emails, delivered).reminderSent, t)
  {
  }

  /** A refused e-mail or a missing address leaves the bill untouched. */
  lemma UndeliveredLeavesBill(b: Bill, now: int, emails: map<string, string>, delivered: set<string>)
    requires b.reminderId !in delivered || !HasEmail(emails, b.userId)
    ensures Processed(b, now, emails, delivered) == b
  {
  }

  /** A second run on the same day does not send the reminder the first run sent. */
  lemma RerunDoesNotRepeat(b: Bill, now: int, later: int, emails: map<string, string>, delivered: set<string>)
    requires DayNumber(later) == DayNumber(now)
    requires SelectReminder(b, now).Some?
    requires Processed(b, now, emails, delivered).reminderSent != b.reminderSent
    ensures SelectReminder(Processed(b, now, emails, delivered), later) != SelectReminder(b, now)
  {
    ProcessedSetsAtMostOneFlag(b, now, emails, delivered);
  }

  lemma ProcessedKeepsIdsUnique(before: seq<Bill>, after: seq<Bill>)
    requires |after| == |before| && ReminderIdsUnique(before)
    requires forall k :: 0 <= k < |before| ==> after[k].reminderId == before[k].reminderId
    ensures ReminderIdsUnique(after)
  {
  }

  /**
   * `checkAndSendReminders`: every bill of the store, in store order, is processed on its own;
   * the run changes no other bill and adds none.
   */
  method CheckAndSendReminders(store: BillStore, now: int, emails: map<string, string>, delivered: set<string>)
    requires store.Valid()
    modifies store
    ensures store.Valid()
    ensures |store.bills| == |old(store.bills)|
    ensures forall k :: 0 <= k < |store.bills| ==> store.bills[k] == Processed(old(store.bills)[k], now, emails, delivered)
  {
    var k := 0;
    while k < |store.bills|
      invariant 0 <= k <= |store.bills| == |old(store.bills)|
      invariant forall i :: 0 <= i < k ==> store.bills[i] == Processed(old(store.bills)[i], now, emails, delivered)
      invariant forall i :: k <= i < |store.bills| ==> store.bills[i] == old(store.bills)[i]
    {
      var bill := store.bills[k];
      if Considered(bill, now) && HasEmail(emails, bill.userId) {
        var daysUntilDue := DaysUntilDue(bill.dueDate, now);
        var shouldSend := false;
        var reminderType: Option<ReminderType> := None;
        if daysUntilDue == 7 && !bill.reminderSent.sent7d {
          shouldSend := true;
          reminderType := Some(Week);
        } else if daysUntilDue == 1 && !bill.reminderSent.sent1d {
          shouldSend := true;
          reminderType := Some(Day);
        } else if daysUntilDue == 0 && !bill.reminderSent.sent24h {
          shouldSend := true;
          reminderType := Some(SameDay);
        }
        assert reminderType == SelectReminder(bill, now);
        if shouldSend && reminderType.Some? && bill.reminderId in delivered {
          var saved := SaveBill(bill.(reminderSent := WithFlag(bill.reminderSent, reminderType.value)));
          if saved.Ok? {
            store.bills := store.bills[k := saved.value];
          }
        }
      }
      k := k + 1;
    }
    ProcessedKeepsIdsUnique(old(store.bills), store.bills);
  }
}
