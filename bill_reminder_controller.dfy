/**
 * The bill-reminder handlers on the reminder collection: create, partial update (a new due
 * date re-arms every reminder), mark paid with the roll-over of a recurring bill, mark unpaid
 * and the soft delete.
 */
module BillReminderController {
  import opened Results
  import opened Money
  import opened Text
  import opened BillReminderModel

  /** The fields of a create request; `amount == 0` and an empty `notes` stand for missing values. */
  datatype BillRequest = BillRequest(
    billName: string, amount: Cents, dueDate: Option<int>, frequency: Option<Frequency>,
    category: Option<BillCategory>, notes: string)

  /** A fresh, unpaid, active reminder with no reminder sent. */
  function FreshBill(id: string, user: string, name: string, amount: Cents, due: int, f: Frequency,
                     c: BillCategory, notes: Option<string>): Bill {
    Bill(id, user, name, amount, due, f, c, false, None, notes, NoneSent, None, true)
  }

  /**
   * The document the create handler builds from a request it accepted. The handler trims the
   * name and the schema's setter trims it again; the setter's trim alone gives the same name.
   */
  function NewBillOf(user: string, req: BillRequest, reminderId: string): (b: Bill)
    requires req.dueDate.Some?
    ensures b.billName == req.billName && b.reminderId == reminderId && b.userId == user
  {
    FreshBill(reminderId, user, req.billName, req.amount, req.dueDate.value,
      req.frequency.GetOr(DefaultFrequency), req.category.GetOr(DefaultBillCategory),
      if req.notes == [] then None else Some(req.notes))
  }

  /**
   * The create handler: a name that is not blank, a positive amount and a due date, then the
   * document with its defaults, saved.
   */
  function PrepareBill(user: string, req: BillRequest, reminderId: string): (r: Result<Bill>)
    ensures IsBlank(req.billName) || req.amount <= 0 || req.dueDate.None? ==> r == Fail(BadRequest)
    ensures r.Ok? ==> FieldsValid(r.value) && r.value.reminderId == reminderId && r.value.userId == user
    ensures r.Ok? ==> r.value.billName == Trim(req.billName) && r.value.amount == req.amount > 0
    ensures r.Ok? ==> !r.value.isPaid && r.value.paidDate.None? && r.value.isActive && r.value.reminderSent == NoneSent
    ensures r.Ok? ==> r.value.frequency == req.frequency.GetOr(DefaultFrequency)
                      && r.value.category == req.category.GetOr(DefaultBillCategory)
    ensures r.Ok? ==> r.value.dueDate == req.dueDate.value && r.value.notes == (if req.notes == [] then None else Some(req.notes))
    ensures r.Ok? && r.value.frequency != OneTime ==> r.value.nextDueDate == Some(NextDueDate(r.value.dueDate, r.value.frequency))
    ensures !IsBlank(req.billName) && req.amount > 0 && req.dueDate.Some? ==>
      && (r.Ok? <==> |Trim(req.billName)| <= MaxBillName && |req.notes| <= MaxBillNotes)
      && (r.Fail? ==> r.failure == SaveRejected)
  {
    if IsBlank(req.billName) then Fail(BadRequest)
    else if req.amount == 0 || req.amount < 0 then Fail(BadRequest)
    else if req.dueDate.None? then Fail(BadRequest)
    else
      SaveBill(NewBillOf(user, req, reminderId))
  }

  /** The supplied fields of an update; `notes == Some(None)` sets them to null. */
  datatype BillPatch = BillPatch(
    billName: Option<string>, amount: Option<Cents>, dueDate: Option<int>, frequency: Option<Frequency>,
    category: Option<BillCategory>, notes: Option<Option<string>>, isActive: Option<bool>)

  /** `$set` of exactly the supplied fields; a supplied due date clears all three reminder flags. */
  function ApplyBillPatch(b: Bill, p: BillPatch): (r: Bill)
    ensures r.reminderId == b.reminderId && r.userId == b.userId && r.isPaid == b.isPaid
    ensures r.paidDate == b.paidDate && r.nextDueDate == b.nextDueDate
    ensures p.dueDate.Some? ==> r.reminderSent == NoneSent
    ensures p.dueDate.None? ==> r.reminderSent == b.reminderSent
    ensures p == BillPatch(None, None, None, None, None, None, None) ==> r == b
  {
    b.(billName := if p.billName.Some? then Trim(p.billName.value) else b.billName,
       amount := p.amount.GetOr(b.amount),
       dueDate := p.dueDate.GetOr(b.dueDate),
       frequency := p.frequency.GetOr(b.frequency),
       category := p.category.GetOr(b.category),
       notes := p.notes.GetOr(b.notes),
       isActive := p.isActive.GetOr(b.isActive),
       reminderSent := if p.dueDate.Some? then NoneSent else b.reminderSent)
  }

  /** Every supplied field is written, the name trimmed; every field left out keeps its stored value. */
  lemma BillPatchWritesSupplied(b: Bill, p: BillPatch)
    ensures var r := ApplyBillPatch(b, p);
      && (p.billName.Some? ==> r.billName == Trim(p.billName.value))
      && (p.amount.Some? ==> r.amount == p.amount.value)
      && (p.dueDate.Some? ==> r.dueDate == p.dueDate.value)
      && (p.frequency.Some? ==> r.frequency == p.frequency.value)
      && (p.category.Some? ==> r.category == p.category.value)
      && (p.notes.Some? ==> r.notes == p.notes.value)
      && (p.isActive.Some? ==> r.isActive == p.isActive.value)
      && (p.billName.None? ==> r.billName == b.billName)
      && (p.amount.None? ==> r.amount == b.amount)
      && (p.dueDate.None? ==> r.dueDate == b.dueDate)
      && (p.frequency.None? ==> r.frequency == b.frequency)
      && (p.category.None? ==> r.category == b.category)
      && (p.notes.None? ==> r.notes == b.notes)
      && (p.isActive.None? ==> r.isActive == b.isActive)
  {
  }

  /** The update of a found reminder: only the field validators guard it; the save hook does not run. */
  function UpdateOutcome(b: Bill, p: BillPatch): (r: Result<Bill>)
    ensures r.Ok? <==> FieldsValid(ApplyBillPatch(b, p))
    ensures r.Ok? ==> r.value == ApplyBillPatch(b, p)
    ensures r.Fail? ==> r.failure == SaveRejected
  {
    var u := ApplyBillPatch(b, p);
    if FieldsValid(u) then Ok(u) else Fail(SaveRejected)
  }

  /** Moving a recurring bill's due date leaves its next due date where the old due date put it. */
  lemma UpdateLeavesNextDueDateStale(b: Bill, due: int)
    requires FieldsValid(b) && b.frequency != OneTime && b == AfterHook(b) && due != b.dueDate
    ensures var r := UpdateOutcome(b, BillPatch(None, None, Some(due), None, None, None, None));
      r.Ok? && r.value.nextDueDate == Some(NextDueDate(b.dueDate, b.frequency)) && r.value.dueDate == due
  {
  }

  /** What marking a bill paid writes: the paid bill, and for a recurring bill the next period's reminder. */
  datatype PaidOutcome = PaidOutcome(paid: Bill, next: Option<Bill>)

  /** A recurring bill with a next due date rolls over. */
  predicate RollsOver(b: Bill) {
    b.frequency != OneTime && b.nextDueDate.Some?
  }

  /**
   * Mark a found bill paid: refused when it is paid already; otherwise paid on the given date
   * or now, and a recurring bill first gets its successor, due at the next due date.
   */
  function MarkPaid(b: Bill, paidDate: Option<int>, now: int, newId: string): (r: Result<PaidOutcome>)
    ensures b.isPaid ==> r == Fail(BadRequest)
    ensures r.Ok? ==> r.value.paid == b.(isPaid := true, paidDate := Some(paidDate.GetOr(now)))
    ensures r.Ok? ==> (r.value.next.Some? <==> RollsOver(b))
    ensures r.Ok? && RollsOver(b) ==>
      var n := r.value.next.value;
      && n.reminderId == newId && n.userId == b.userId && n.billName == Trim(b.billName)
      && n.amount == b.amount && n.frequency == b.frequency && n.category == b.category && n.notes == b.notes
      && n.dueDate == b.nextDueDate.value && !n.isPaid && n.paidDate.None? && n.isActive
      && n.reminderSent == NoneSent && n.nextDueDate == Some(NextDueDate(n.dueDate, n.frequency))
    ensures !b.isPaid && !RollsOver(b) ==> r.Ok?
    ensures !b.isPaid && RollsOver(b) ==>
      && (r.Ok? <==> FieldsValid(b.(billName := Trim(b.billName))))
      && (r.Fail? ==> r.failure == SaveRejected)
  {
    if b.isPaid then Fail(BadRequest)
    else
      var paid := b.(isPaid := true, paidDate := Some(paidDate.GetOr(now)));
      if RollsOver(b) then
        match SaveBill(FreshBill(newId, b.userId, b.billName, b.amount, b.nextDueDate.value, b.frequency,
                                 b.category, b.notes))
        case Fail(f) => Fail(f)
        case Ok(next) => Ok(PaidOutcome(paid, Some(next)))
      else Ok(PaidOutcome(paid, None))
  }

  /** Marking paid twice is refused the second time. */
  lemma MarkPaidOnce(b: Bill, d1: Option<int>, d2: Option<int>, t1: int, t2: int, id1: string, id2: string)
    requires MarkPaid(b, d1, t1, id1).Ok?
    ensures MarkPaid(MarkPaid(b, d1, t1, id1).value.paid, d2, t2, id2) == Fail(BadRequest)
  {
  }

  /** A soft-deleted recurring bill can still be marked paid, and its successor is active. */
  lemma DeletedBillStillRollsOver(b: Bill, now: int, newId: string)
    requires !b.isActive && !b.isPaid && RollsOver(b) && FieldsValid(b) && Trim(b.billName) == b.billName
    ensures var r := MarkPaid(b, None, now, newId);
      r.Ok? && r.value.next.Some? && r.value.next.value.isActive
  {
  }

  function IndexOfBill(bills: seq<Bill>, reminderId: string, user: string): (r: Option<nat>)
    ensures r.Some? ==> r.value < |bills| && bills[r.value].reminderId == reminderId && bills[r.value].userId == user
    ensures r.None? ==> forall k :: 0 <= k < |bills| ==> !(bills[k].reminderId == reminderId && bills[k].userId == user)
  {
    if bills == [] then None
    else if bills[0].reminderId == reminderId && bills[0].userId == user then Some(0)
    else match IndexOfBill(bills[1..], reminderId, user)
      case Some(p) => Some(p + 1)
      case None => None
  }

  predicate ReminderIdsUnique(bills: seq<Bill>) {
    forall i, j :: 0 <= i < j < |bills| ==> bills[i].reminderId != bills[j].reminderId
  }

  lemma AppendKeepsReminderIdsUnique(bills: seq<Bill>, b: Bill)
    requires ReminderIdsUnique(bills)
    requires forall k :: 0 <= k < |bills| ==> bills[k].reminderId != b.reminderId
    ensures ReminderIdsUnique(bills + [b])
  {
  }

  /** The reminder collection in insertion order. */
  class BillStore {
    var bills: seq<Bill>

    predicate Valid()
      reads this
    {
      ReminderIdsUnique(bills)
    }

    constructor()
      ensures Valid() && bills == []
    {
      bills := [];
    }

    /** Create a reminder under an id no reminder has. */
    method Create(user: string, req: BillRequest, reminderId: string) returns (r: Result<Bill>)
      requires Valid()
      requires forall k :: 0 <= k < |bills| ==> bills[k].reminderId != reminderId
      modifies this
      ensures Valid()
      ensures r == PrepareBill(user, req, reminderId)
      ensures bills == (if r.Ok? then old(bills) + [r.value] else old(bills))
    {
      r := PrepareBill(user, req, reminderId);
      if r.Ok? {
        AppendKeepsReminderIdsUnique(bills, r.value);
        bills := bills + [r.value];
      }
    }

    /** Update one of the user's reminders. */
    method Update(user: string, reminderId: string, p: BillPatch) returns (r: Result<Bill>)
      requires Valid()
      modifies this
      ensures Valid()
      ensures var idx := IndexOfBill(old(bills), reminderId, user);
        && (idx.None? ==> r == Fail(NotFound) && bills == old(bills))
        && (idx.Some? ==>
              r == UpdateOutcome(old(bills)[idx.value], p)
              && bills == (if r.Ok? then old(bills)[idx.value := r.value] else old(bills)))
    {
      var idx := IndexOfBill(bills, reminderId, user);
      if idx.None? {
        return Fail(NotFound);
      }
      r := UpdateOutcome(bills[idx.value], p);
      if r.Ok? {
        bills := bills[idx.value := r.value];
      }
    }

    /** Mark one of the user's reminders paid (the lookup ignores `isActive`); the successor is stored first. */
    method MarkPaidById(user: string, reminderId: string, paidDate: Option<int>, now: int, newId: string)
      returns (r: Result<Bill>)
      requires Valid()
      requires forall k :: 0 <= k < |bills| ==> bills[k].reminderId != newId
      modifies this
      ensures Valid()
      ensures var idx := IndexOfBill(old(bills), reminderId, user);
        && (idx.None? ==> r == Fail(NotFound) && bills == old(bills))
        && (idx.Some? ==>
              var out := MarkPaid(old(bills)[idx.value], paidDate, now, newId);
              && (out.Fail? ==> r == Fail(out.failure) && bills == old(bills))
              && (out.Ok? ==>
                    r == Ok(out.value.paid)
                    && bills == old(bills)[idx.value := out.value.paid]
                                + (if out.value.next.Some? then [out.value.next.value] else [])))
    {
      var idx := IndexOfBill(bills, reminderId, user);
      if idx.None? {
        return Fail(NotFound);
      }
      var out := MarkPaid(bills[idx.value], paidDate, now, newId);
      if out.Fail? {
        return Fail(out.failure);
      }
      var updated := bills[idx.value := out.value.paid];
      assert ReminderIdsUnique(updated);
      if out.value.next.Some? {
        AppendKeepsReminderIdsUnique(updated, out.value.next.value);
        updated := updated + [out.value.next.value];
      }
      bills := updated;
      r := Ok(out.value.paid);
    }

    /** Undo a payment: unpaid, no paid date, nothing else touched. */
    method MarkUnpaid(user: string, reminderId: string) returns (r: Result<Bill>)
      requires Valid()
      modifies this
      ensures Valid()
      ensures var idx := IndexOfBill(old(bills), reminderId, user);
        && (idx.None? ==> r == Fail(NotFound) && bills == old(bills))
        && (idx.Some? ==>
              var b := old(bills)[idx.value];
              r == Ok(b.(isPaid := false, paidDate := None)) && bills == old(bills)[idx.value := r.value])
    {
      var idx := IndexOfBill(bills, reminderId, user);
      if idx.None? {
        return Fail(NotFound);
      }
      var b := bills[idx.value];
      r := Ok(b.(isPaid := false, paidDate := None));
      bills := bills[idx.value := r.value];
    }

    /** Soft delete: the reminder stays, inactive. */
    method Delete(user: string, reminderId: string) returns (r: Result<Bill>)
      requires Valid()
      modifies this
      ensures Valid()
      ensures |bills| == |old(bills)|
      ensures var idx := IndexOfBill(old(bills), reminderId, user);
        && (idx.None? ==> r == Fail(NotFound) && bills == old(bills))
        && (idx.Some? ==>
              r == Ok(old(bills)[idx.value].(isActive := false)) && bills == old(bills)[idx.value := r.value])
    {
      var idx := IndexOfBill(bills, reminderId, user);
      if idx.None? {
        return Fail(NotFound);
      }
      r := Ok(bills[idx.value].(isActive := false));
      bills := bills[idx.value := r.value];
    }
  }
}
