/**
 * The settlement document (a recorded payment between two members of a group) and the
 * checks and hooks of its save.
 */
module SettlementModel {
  import opened Results
  import opened Money
  import opened ExpenseGroupModel

  datatype Status = Pending | Completed | Cancelled

  datatype PaymentMethod = Cash | BankTransfer | Upi | CreditCard | DebitCard | OtherMethod

  datatype Settlement = Settlement(
    settlementId: string,
    groupId: string,
    fromUser: UserRef,
    toUser: UserRef,
    amount: Cents,
    currency: string,
    status: Status,
    settledAt: Option<int>,
    paymentMethod: Option<PaymentMethod>,
    notes: string,
    expenseIds: seq<string>,
    isActive: bool)

  const MinSettlementAmount: Cents := 1   // 0.01
  const MaxNotes: nat := 500

  predicate RefValid(u: UserRef) {
    u.userId != [] && u.name != [] && u.email != []
  }

  /** The field validators: required strings, amount at least 0.01, bounded currency and notes. */
  predicate FieldsValid(s: Settlement) {
    && s.settlementId != [] && s.groupId != []
    && RefValid(s.fromUser) && RefValid(s.toUser)
    && s.amount >= MinSettlementAmount
    && |s.currency| <= MaxCurrency
    && |s.notes| <= MaxNotes
  }

  /** The pre-save hook that refuses a settlement from a member to themself. */
  predicate DistinctParties(s: Settlement) {
    s.fromUser.userId != s.toUser.userId
  }

  /**
   * The pre-save hook that stamps `settledAt`: only when the status was modified, is now
   * Completed, and no stamp exists yet.
   */
  function StampSettledAt(s: Settlement, statusModified: bool, now: int): (r: Settlement)
    ensures r == s || (r == s.(settledAt := Some(now)) && s.settledAt == None)
    ensures r.settledAt.Some? <==> s.settledAt.Some? || (statusModified && s.status == Completed)
    ensures s.settledAt.Some? ==> r.settledAt == s.settledAt
  {
    if statusModified && s.status == Completed && s.settledAt.None? then s.(settledAt := Some(now)) else s
  }

  /** `settlement.save()` at time `now`: validators and hooks, then the stored document. */
  function SaveSettlement(s: Settlement, statusModified: bool, now: int): (r: Result<Settlement>)
    ensures r.Ok? <==> FieldsValid(s) && DistinctParties(s)
    ensures r.Ok? ==> r.value == StampSettledAt(s, statusModified, now)
    ensures r.Fail? ==> r.failure == SaveRejected
  {
    if FieldsValid(s) && DistinctParties(s) then Ok(StampSettledAt(s, statusModified, now))
    else Fail(SaveRejected)
  }

  /** Saving again after a stamp, at any later time, keeps the first stamp. */
  lemma StampIsIdempotent(s: Settlement, statusModified: bool, t1: int, t2: int)
    ensures StampSettledAt(StampSettledAt(s, statusModified, t1), statusModified, t2)
         == StampSettledAt(s, statusModified, t1)
  {
  }

  /** A fresh settlement saved as Pending is never stamped. */
  lemma PendingIsNotStamped(s: Settlement, statusModified: bool, now: int)
    requires s.status == Pending && s.settledAt == None
    ensures StampSettledAt(s, statusModified, now).settledAt == None
  {
  }
}
