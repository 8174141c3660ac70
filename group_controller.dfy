/**
 * The group ledger: groups, their expenses and their settlements, and the handlers that add
 * and update expenses, approve them, record and complete settlements, compute balances and
 * suggested payments, and add or remove members.
 */
module GroupController {
  import opened Results
  import opened Money
  import opened Text
  import opened ExpenseGroupModel
  import opened GroupExpenseModel
  import opened SettlementModel
  import opened GroupMembership
  import opened SplitCalculator
  import opened BalanceAggregator
  import opened SettlementMatcher

  // ---------------------------------------------------------------- approval gate

  /** `members.find(m => m.expenseAppUserId === id && m.role === "Admin")`. */
  function AdminEntry(members: seq<GroupMember>, id: UserId): (r: Option<GroupMember>)
    ensures r.None? <==> forall k :: 0 <= k < |members| ==> !(members[k].userId == id && members[k].role == Admin)
    ensures r.Some? ==> r.value in members && r.value.userId == id && r.value.role == Admin
  {
    if members == [] then None
    else if members[0].userId == id && members[0].role == Admin then Some(members[0])
    else AdminEntry(members[1..], id)
  }

  /**
   * A new expense waits for approval when the group asks for it, the author is not the creator
   * and the author has no entry with role Admin.
   */
  function RequiresApproval(g: Group, caller: UserId): (r: bool)
    ensures r <==> (g.settings.requireApprovalForExpense && g.createdBy != caller
                    && forall k :: 0 <= k < |g.members| ==> !(g.members[k].userId == caller && g.members[k].role == Admin))
  {
    g.settings.requireApprovalForExpense && g.createdBy != caller && AdminEntry(g.members, caller).None?
  }

  /** A member with role Owner who did not create the group still waits for approval; an Admin does not. */
  lemma OwnerRoleIsNotExempt(g: Group, caller: UserId)
    requires g.settings.requireApprovalForExpense && g.createdBy != caller
    requires g.members == [GroupMember(caller, "o@x.com", "O", Owner, 0, true)]
    ensures RequiresApproval(g, caller)
    ensures !RequiresApproval(g.(members := [GroupMember(caller, "o@x.com", "O", Admin, 0, true)]), caller)
  {
  }

  /** The first entry of the caller has role Owner or Admin; unlike `IsManager` the creator is not enough. */
  predicate IsAdminMember(g: Group, caller: UserId) {
    FindMember(g.members, caller).Some? && FindMember(g.members, caller).value.role in {Owner, Admin}
  }

  // ---------------------------------------------------------------- adding an expense

  /** The fields of an add-expense request; `amount == 0` stands for a missing amount. */
  datatype ExpenseRequest = ExpenseRequest(
    groupId: string, expenseName: string, description: string, amount: Cents, category: string,
    date: Option<int>, splitMethod: Option<SplitMethod>, splits: seq<SplitInput>, paidBy: Option<UserRef>)

  predicate RequiredPresent(req: ExpenseRequest) {
    req.groupId != [] && req.expenseName != [] && req.amount != 0 && req.category != [] && req.paidBy.Some?
  }

  /** The group an active-group lookup finds. */
  predicate ActiveGroup(groups: map<string, Group>, id: string) {
    id in groups && groups[id].isActive
  }

  /**
   * The add-expense handler up to and including the save: required fields, the active group,
   * the caller's membership, the split for the chosen method, then the document with its
   * defaults, trimmed name and category, the group's currency and the approval flag.
   */
  function PrepareExpense(groups: map<string, Group>, caller: UserId, req: ExpenseRequest,
                          expenseId: string, now: int): (r: Result<GroupExpense>)
    ensures !RequiredPresent(req) ==> r == Fail(BadRequest)
    ensures RequiredPresent(req) && !ActiveGroup(groups, req.groupId) ==> r == Fail(NotFound)
    ensures RequiredPresent(req) && ActiveGroup(groups, req.groupId) && !IsActiveMember(groups[req.groupId], caller)
      ==> r == Fail(Forbidden)
    ensures r.Ok? ==> RequiredPresent(req) && ActiveGroup(groups, req.groupId) && IsActiveMember(groups[req.groupId], caller)
    ensures r.Ok? ==> r.value.expenseId == expenseId
    ensures RequiredPresent(req) && ActiveGroup(groups, req.groupId) && IsActiveMember(groups[req.groupId], caller) ==>
      var g := groups[req.groupId];
      var splits := ComputeSplits(g.members, req.splitMethod.GetOr(g.defaultSplitMethod), req.amount, req.splits,
                                  req.paidBy.value.userId, now);
      && (splits.Fail? ==> r == Fail(splits.failure))
      && (splits.Ok? ==>
            var doc := Normalized(Draft(g, caller, req, expenseId, now, splits.value));
            (r.Ok? <==> SaveValid(doc)) && (r.Ok? ==> r.value == doc))
  {
    if !RequiredPresent(req) then Fail(BadRequest)
    else if !ActiveGroup(groups, req.groupId) then Fail(NotFound)
    else
      var g := groups[req.groupId];
      if !IsActiveMember(g, caller) then Fail(Forbidden)
      else
        var splitMethod := req.splitMethod.GetOr(g.defaultSplitMethod);
        match ComputeSplits(g.members, splitMethod, req.amount, req.splits, req.paidBy.value.userId, now)
        case Fail(f) => Fail(f)
        case Ok(splits) => SaveExpense(Draft(g, caller, req, expenseId, now, splits))
  }

  /** The document the handler builds for a request that passed its checks. */
  function Draft(g: Group, caller: UserId, req: ExpenseRequest, expenseId: string, now: int,
                 splits: seq<Split>): GroupExpense
    requires req.paidBy.Some?
  {
    NewExpense(expenseId, req.groupId, caller, Trim(req.expenseName), req.description,
      req.amount, g.currency, Trim(req.category), req.date.GetOr(now), req.splitMethod.GetOr(g.defaultSplitMethod),
      splits, req.paidBy.value, RequiresApproval(g, caller))
  }

  /**
   * A created expense passes the save validators and hooks and carries the request's fields,
   * the group's currency, the defaults and the approval flag; an equal split adds up to the
   * amount with one share per active member.
   */
  lemma PreparedExpenseIsValid(groups: map<string, Group>, caller: UserId, req: ExpenseRequest,
                               expenseId: string, now: int)
    ensures var r := PrepareExpense(groups, caller, req, expenseId, now);
      r.Ok? ==>
        && SaveValid(r.value)
        && r.value.groupId == req.groupId && r.value.addedBy == caller
        && r.value.amount == req.amount && r.value.currency == groups[req.groupId].currency
        && r.value.splitMethod == req.splitMethod.GetOr(groups[req.groupId].defaultSplitMethod)
        && !r.value.isSettled && r.value.settledAt.None? && r.value.approvedBy == [] && r.value.isActive
        && r.value.requiresApproval == RequiresApproval(groups[req.groupId], caller)
        && r.value.expenseName == Trim(req.expenseName) && r.value.category == Trim(req.category)
        && r.value.description == req.description && r.value.date == req.date.GetOr(now)
        && r.value.paidBy == req.paidBy.value
        && (r.value.splitMethod == Equal ==>
              && ActiveMembers(groups[req.groupId].members) != []
              && r.value.splits == EqualSplits(ActiveMembers(groups[req.groupId].members), req.amount, req.paidBy.value.userId, now)
              && SplitTotal(r.value.splits) == r.value.amount
              && |r.value.splits| == |ActiveMembers(groups[req.groupId].members)|)
        && (r.value.splitMethod == Percentage ==>
              AllHavePercentage(req.splits) && r.value.splits == PercentageSplits(req.splits, req.amount).value)
        && (r.value.splitMethod == Custom || r.value.splitMethod == Exact ==> r.value.splits == StoredAll(req.splits))
  {
  }

  // ---------------------------------------------------------------- updating an expense

  /** The fields an update request supplies; `otherKeys` says whether it names any key besides these. */
  datatype ExpensePatch = ExpensePatch(
    expenseName: Option<string>, description: Option<string>, amount: Option<Cents>,
    category: Option<string>, date: Option<int>, splits: Option<seq<SplitInput>>,
    isSettled: Option<bool>, otherKeys: bool)

  /** `Object.keys(req.body).every(k => k === "isSettled")`, which an empty body satisfies. */
  predicate OnlySettledKeys(p: ExpensePatch) {
    p.expenseName.None? && p.description.None? && p.amount.None? && p.category.None?
      && p.date.None? && p.splits.None? && !p.otherKeys
  }

  /** The author, an Owner/Admin entry, or the payer when the request only touches `isSettled`. */
  predicate CanUpdate(g: Group, e: GroupExpense, caller: UserId, p: ExpensePatch) {
    e.addedBy == caller || IsAdminMember(g, caller) || (OnlySettledKeys(p) && e.paidBy.userId == caller)
  }

  /** The `$set` of the update: supplied fields only, name and category trimmed, the settle stamp. */
  function ApplyPatch(e: GroupExpense, p: ExpensePatch, now: int): (r: GroupExpense)
  {
    var name := if p.expenseName.Some? then Trim(p.expenseName.value) else e.expenseName;
    var category := if p.category.Some? then Trim(p.category.value) else e.category;
    var splits := if p.splits.Some? then StoredAll(p.splits.value) else e.splits;
    var settledAt := if p.isSettled.None? then e.settledAt else if p.isSettled.value then Some(now) else None;
    GroupExpense(e.expenseId, e.groupId, e.addedBy, name, p.description.GetOr(e.description),
      p.amount.GetOr(e.amount), e.currency, category, p.date.GetOr(e.date), e.splitMethod, splits,
      e.paidBy, p.isSettled.GetOr(e.isSettled), settledAt, e.requiresApproval, e.approvedBy, e.isActive)
  }

  /** Every supplied field is written: name and category trimmed, rows stored, the settle stamp set or cleared. */
  lemma ApplyPatchWritesSupplied(e: GroupExpense, p: ExpensePatch, now: int)
    ensures var r := ApplyPatch(e, p, now);
      && (p.expenseName.Some? ==> r.expenseName == Trim(p.expenseName.value))
      && (p.category.Some? ==> r.category == Trim(p.category.value))
      && (p.description.Some? ==> r.description == p.description.value)
      && (p.amount.Some? ==> r.amount == p.amount.value)
      && (p.date.Some? ==> r.date == p.date.value)
      && (p.splits.Some? ==> r.splits == StoredAll(p.splits.value))
      && (p.isSettled.Some? ==> r.isSettled == p.isSettled.value && r.settledAt == (if p.isSettled.value then Some(now) else None))
  {
  }

  /** The identity, author, currency, method, payer, approvals and activity are never patched, and every field the request leaves out keeps its stored value. */
  lemma ApplyPatchKeepsAbsent(e: GroupExpense, p: ExpensePatch, now: int)
    ensures var r := ApplyPatch(e, p, now);
      && r.expenseId == e.expenseId && r.groupId == e.groupId && r.addedBy == e.addedBy
      && r.currency == e.currency && r.splitMethod == e.splitMethod && r.paidBy == e.paidBy
      && r.requiresApproval == e.requiresApproval && r.approvedBy == e.approvedBy && r.isActive == e.isActive
      && (p.expenseName.None? ==> r.expenseName == e.expenseName)
      && (p.category.None? ==> r.category == e.category)
      && (p.description.None? ==> r.description == e.description)
      && (p.amount.None? ==> r.amount == e.amount)
      && (p.date.None? ==> r.date == e.date)
      && (p.splits.None? ==> r.splits == e.splits)
      && (p.isSettled.None? ==> r.isSettled == e.isSettled && r.settledAt == e.settledAt)
  {
  }

  /** A request that supplies no field leaves the expense exactly as it was. */
  lemma ApplyPatchEmptyIsIdentity(e: GroupExpense, p: ExpensePatch, now: int)
    requires OnlySettledKeys(p) && p.isSettled.None?
    ensures ApplyPatch(e, p, now) == e
  {
  }

  /**
   * The update handler on a found expense: the group must exist (a missing group makes the
   * handler fail), the caller must be allowed, and the updated document must pass the field
   * validators. The split-sum and percentage hooks are save hooks and do not guard this path.
   */
  function UpdateOutcome(groups: map<string, Group>, e: GroupExpense, caller: UserId,
                         p: ExpensePatch, now: int): (r: Result<GroupExpense>)
    ensures e.groupId !in groups ==> r == Fail(ServerError)
    ensures e.groupId in groups && !CanUpdate(groups[e.groupId], e, caller, p) ==> r == Fail(Forbidden)
    ensures r.Ok? ==> CanUpdate(groups[e.groupId], e, caller, p) && r.value == ApplyPatch(e, p, now) && GroupExpenseModel.FieldsValid(r.value)
    ensures e.groupId in groups && CanUpdate(groups[e.groupId], e, caller, p) && GroupExpenseModel.FieldsValid(ApplyPatch(e, p, now)) ==> r.Ok?
  {
    if e.groupId !in groups then Fail(ServerError)
    else if !CanUpdate(groups[e.groupId], e, caller, p) then Fail(Forbidden)
    else
      var u := ApplyPatch(e, p, now);
      if GroupExpenseModel.FieldsValid(u) then Ok(u) else Fail(SaveRejected)
  }

  /** The payer may settle or unsettle an expense, and such a request changes nothing else. */
  lemma PayerMaySettle(groups: map<string, Group>, e: GroupExpense, caller: UserId, v: bool, now: int)
    requires e.groupId in groups && e.paidBy.userId == caller && GroupExpenseModel.FieldsValid(e)
    ensures var p := ExpensePatch(None, None, None, None, None, None, Some(v), false);
      UpdateOutcome(groups, e, caller, p, now) == Ok(e.(isSettled := v, settledAt := if v then Some(now) else None))
  {
  }

  /** Changing only the amount passes the update although the split no longer adds up to it. */
  lemma AmountUpdateBreaksSplitSum(groups: map<string, Group>, e: GroupExpense, now: int)
    requires e.groupId in groups && GroupExpenseModel.FieldsValid(e) && |e.splits| > 0 && SplitTotal(e.splits) == e.amount
    ensures var p := ExpensePatch(None, None, Some(e.amount + 100), None, None, None, None, false);
      var r := UpdateOutcome(groups, e, e.addedBy, p, now);
      r.Ok? && !SplitSumValid(r.value)
  {
  }

  // ---------------------------------------------------------------- approving an expense

  function CountApprovals(approvals: seq<Approval>, id: UserId): nat {
    if approvals == [] then 0
    else CountApprovals(approvals[..|approvals| - 1], id) + (if approvals[|approvals| - 1].userId == id then 1 else 0)
  }

  predicate HasApproved(approvals: seq<Approval>, id: UserId) {
    exists k :: 0 <= k < |approvals| && approvals[k].userId == id
  }

  lemma {:induction false} CountZeroIffNotApproved(approvals: seq<Approval>, id: UserId)
    ensures CountApprovals(approvals, id) == 0 <==> !HasApproved(approvals, id)
  {
    if approvals != [] {
      var pre := approvals[..|approvals| - 1];
      CountZeroIffNotApproved(pre, id);
      if HasApproved(pre, id) {
        var k :| 0 <= k < |pre| && pre[k].userId == id;
        assert approvals[k] == pre[k];
      }
      if HasApproved(approvals, id) && approvals[|approvals| - 1].userId != id {
        var k :| 0 <= k < |approvals| && approvals[k].userId == id;
        assert pre[k] == approvals[k];
      }
    }
  }

  /**
   * The approve handler on a found expense: only an Owner/Admin entry may approve; an approver
   * already listed leaves the expense as it is; otherwise the approval is appended and the
   * expense saved again (with every save check).
   */
  function Approve(groups: map<string, Group>, e: GroupExpense, caller: UserId, now: int): (r: Result<GroupExpense>)
    ensures e.groupId !in groups ==> r == Fail(ServerError)
    ensures e.groupId in groups && !IsAdminMember(groups[e.groupId], caller) ==> r == Fail(Forbidden)
    ensures r.Ok? ==> IsAdminMember(groups[e.groupId], caller) && HasApproved(r.value.approvedBy, caller)
    ensures r.Ok? && HasApproved(e.approvedBy, caller) ==> r.value == e
    ensures r.Ok? && !HasApproved(e.approvedBy, caller) ==>
      r.value == Normalized(e.(approvedBy := e.approvedBy + [Approval(caller, now)]))
    ensures e.groupId in groups && IsAdminMember(groups[e.groupId], caller) && HasApproved(e.approvedBy, caller) ==> r == Ok(e)
    ensures e.groupId in groups && IsAdminMember(groups[e.groupId], caller) && !HasApproved(e.approvedBy, caller) ==>
      (r.Ok? <==> SaveValid(Normalized(e.(approvedBy := e.approvedBy + [Approval(caller, now)]))))
    ensures r.Fail? && e.groupId in groups && IsAdminMember(groups[e.groupId], caller) ==> r.failure == SaveRejected
  {
    if e.groupId !in groups then Fail(ServerError)
    else if !IsAdminMember(groups[e.groupId], caller) then Fail(Forbidden)
    else if HasApproved(e.approvedBy, caller) then Ok(e)
    else
      var added := e.approvedBy + [Approval(caller, now)];
      assert added[|e.approvedBy|].userId == caller;
      SaveExpense(e.(approvedBy := added))
  }

  /** Approving again, at any later time, changes nothing. */
  lemma ApproveIsIdempotent(groups: map<string, Group>, e: GroupExpense, caller: UserId, t1: int, t2: int)
    requires Approve(groups, e, caller, t1).Ok?
    ensures var e1 := Approve(groups, e, caller, t1).value;
      e1.groupId == e.groupId && Approve(groups, e1, caller, t2) == Ok(e1)
  {
  }

  /** An approver is listed at most once: a first approval lists the caller exactly once. */
  lemma ApproveListsCallerOnce(groups: map<string, Group>, e: GroupExpense, caller: UserId, now: int)
    requires Approve(groups, e, caller, now).Ok?
    requires CountApprovals(e.approvedBy, caller) <= 1
    ensures CountApprovals(Approve(groups, e, caller, now).value.approvedBy, caller) == 1
  {
    var e1 := Approve(groups, e, caller, now).value;
    CountZeroIffNotApproved(e.approvedBy, caller);
    if !HasApproved(e.approvedBy, caller) {
      var added := e.approvedBy + [Approval(caller, now)];
      assert added[..|added| - 1] == e.approvedBy;
    } else {
      CountZeroIffNotApproved(e1.approvedBy, caller);
    }
  }

  // ---------------------------------------------------------------- recording a settlement

  /** The fields of a create-settlement request; `amount == None` stands for null or "". */
  datatype SettlementRequest = SettlementRequest(
    groupId: string, fromUserId: UserId, toUserId: UserId, amount: Option<Cents>,
    paymentMethod: Option<PaymentMethod>, notes: string, expenseIds: seq<string>)

  /**
   * The create-settlement handler up to the save: required fields, the active group and the
   * caller's membership, both parties found among the group's entries (active or not), then a
   * Pending settlement in the group's currency.
   */
  function PrepareSettlement(groups: map<string, Group>, caller: UserId, req: SettlementRequest,
                             settlementId: string, now: int): (r: Result<Settlement>)
    ensures !SettlementRequestPresent(req) ==> r == Fail(BadRequest)
    ensures SettlementRequestPresent(req) && !ActiveGroup(groups, req.groupId) ==> r == Fail(NotFound)
    ensures SettlementRequestPresent(req) && ActiveGroup(groups, req.groupId) && !IsActiveMember(groups[req.groupId], caller)
      ==> r == Fail(Forbidden)
    ensures SettlementRequestPresent(req) && ActiveGroup(groups, req.groupId) && IsActiveMember(groups[req.groupId], caller)
      && (FindMember(groups[req.groupId].members, req.fromUserId).None? || FindMember(groups[req.groupId].members, req.toUserId).None?)
      ==> r == Fail(BadRequest)
    ensures SettlementRequestPresent(req) && ActiveGroup(groups, req.groupId) && IsActiveMember(groups[req.groupId], caller)
      && FindMember(groups[req.groupId].members, req.fromUserId).Some? && FindMember(groups[req.groupId].members, req.toUserId).Some?
      ==> var g := groups[req.groupId];
          var doc := SettlementDraft(g, req, FindMember(g.members, req.fromUserId).value, FindMember(g.members, req.toUserId).value, settlementId);
          (r.Ok? <==> SettlementModel.FieldsValid(doc) && DistinctParties(doc)) && (r.Fail? ==> r.failure == SaveRejected)
    ensures r.Ok? ==> ActiveGroup(groups, req.groupId) && IsActiveMember(groups[req.groupId], caller)
    ensures r.Ok? ==> SettlementModel.FieldsValid(r.value) && DistinctParties(r.value)
    ensures r.Ok? ==> r.value.fromUser.userId == req.fromUserId && r.value.toUser.userId == req.toUserId
    ensures r.Ok? ==> FindMember(groups[req.groupId].members, req.fromUserId).Some?
                      && FindMember(groups[req.groupId].members, req.toUserId).Some?
    ensures r.Ok? ==> r.value.amount == req.amount.value && r.value.status == Pending && r.value.settledAt.None?
    ensures r.Ok? ==> r.value.currency == groups[req.groupId].currency && r.value.expenseIds == req.expenseIds
    ensures r.Ok? ==> r.value.isActive && r.value.settlementId == settlementId
    ensures req.fromUserId == req.toUserId ==> r.Fail?
  {
    if req.groupId == [] || req.fromUserId == [] || req.toUserId == [] || req.amount.None? then Fail(BadRequest)
    else if !ActiveGroup(groups, req.groupId) then Fail(NotFound)
    else
      var g := groups[req.groupId];
      if !IsActiveMember(g, caller) then Fail(Forbidden)
      else
        var from := FindMember(g.members, req.fromUserId);
        var to := FindMember(g.members, req.toUserId);
        if from.None? || to.None? then Fail(BadRequest)
        else SaveSettlement(SettlementDraft(g, req, from.value, to.value, settlementId), true, now)
  }

  /** A settlement request carries a group id, both parties and an amount. */
  predicate SettlementRequestPresent(req: SettlementRequest) {
    req.groupId != [] && req.fromUserId != [] && req.toUserId != [] && req.amount.Some?
  }

  /** The Pending settlement the handler builds between the two member entries it found. */
  function SettlementDraft(g: Group, req: SettlementRequest, from: GroupMember, to: GroupMember,
                           settlementId: string): Settlement
    requires req.amount.Some?
  {
    Settlement(settlementId, req.groupId, RefOf(from), RefOf(to),
      req.amount.value, g.currency, Pending, None, req.paymentMethod, req.notes, req.expenseIds, true)
  }

  // ---------------------------------------------------------------- updating a settlement

  /** The supplied fields of a status update; `paymentMethod == Some(None)` sets it to null. */
  datatype SettlementPatch = SettlementPatch(
    status: Option<Status>, paymentMethod: Option<Option<PaymentMethod>>, notes: Option<string>)

  /** `$set` of the supplied status, payment method and notes; nothing else changes. */
  function ApplySettlementPatch(s: Settlement, p: SettlementPatch): (r: Settlement)
    ensures r.(status := s.status, paymentMethod := s.paymentMethod, notes := s.notes) == s
    ensures p.status.Some? ==> r.status == p.status.value
    ensures p.paymentMethod.Some? ==> r.paymentMethod == p.paymentMethod.value
    ensures p.notes.Some? ==> r.notes == p.notes.value
    ensures p.status.None? ==> r.status == s.status
    ensures p.paymentMethod.None? ==> r.paymentMethod == s.paymentMethod
    ensures p.notes.None? ==> r.notes == s.notes
  {
    s.(status := p.status.GetOr(s.status), paymentMethod := p.paymentMethod.GetOr(s.paymentMethod),
       notes := p.notes.GetOr(s.notes))
  }

  /**
   * The status update on a found settlement: a missing or inactive group makes the handler
   * fail, only a member may update, the supplied fields must pass the validators. Any status
   * may follow any other.
   */
  function SettlementUpdateOutcome(groups: map<string, Group>, s: Settlement, caller: UserId,
                                   p: SettlementPatch): (r: Result<Settlement>)
    ensures !ActiveGroup(groups, s.groupId) ==> r == Fail(ServerError)
    ensures ActiveGroup(groups, s.groupId) && !IsActiveMember(groups[s.groupId], caller) ==> r == Fail(Forbidden)
    ensures r.Ok? ==> r.value == ApplySettlementPatch(s, p) && SettlementModel.FieldsValid(r.value)
    ensures (ActiveGroup(groups, s.groupId) && IsActiveMember(groups[s.groupId], caller)
             && SettlementModel.FieldsValid(ApplySettlementPatch(s, p))) ==> r.Ok?
  {
    if !ActiveGroup(groups, s.groupId) then Fail(ServerError)
    else if !IsActiveMember(groups[s.groupId], caller) then Fail(Forbidden)
    else
      var u := ApplySettlementPatch(s, p);
      if SettlementModel.FieldsValid(u) then Ok(u) else Fail(SaveRejected)
  }

  /** No transition is refused: a Cancelled settlement can be completed and a Completed one reopened. */
  lemma AnyStatusMayFollowAny(groups: map<string, Group>, s: Settlement, caller: UserId, next: Status)
    requires ActiveGroup(groups, s.groupId) && IsActiveMember(groups[s.groupId], caller) && SettlementModel.FieldsValid(s)
    ensures SettlementUpdateOutcome(groups, s, caller, SettlementPatch(Some(next), None, None)) == Ok(s.(status := next))
  {
  }

  /** `updateMany({ expenseId: { $in: ids } }, { isSettled: true, settledAt: now })`, over every group. */
  function Reconcile(expenses: seq<GroupExpense>, ids: seq<string>, now: int): (r: seq<GroupExpense>)
    ensures |r| == |expenses|
  {
    seq(|expenses|, k requires 0 <= k < |expenses| =>
      if expenses[k].expenseId in ids then expenses[k].(isSettled := true, settledAt := Some(now)) else expenses[k])
  }

  /** Exactly the listed expenses become settled, stamped now; every other expense is untouched. */
  lemma ReconcileMarksExactlyListed(expenses: seq<GroupExpense>, ids: seq<string>, now: int)
    ensures var r := Reconcile(expenses, ids, now);
      forall k :: 0 <= k < |expenses| ==>
        (expenses[k].expenseId in ids ==> r[k] == expenses[k].(isSettled := true, settledAt := Some(now)))
        && (expenses[k].expenseId !in ids ==> r[k] == expenses[k])
  {
  }

  /** Marking again is harmless: only the stamp moves to the later time. */
  lemma ReconcileTwice(expenses: seq<GroupExpense>, ids: seq<string>, t1: int, t2: int)
    ensures Reconcile(Reconcile(expenses, ids, t1), ids, t2) == Reconcile(expenses, ids, t2)
  {
  }

  // ---------------------------------------------------------------- reading the ledger

  /** `find({ groupId, isActive: true })`. */
  function ActiveExpensesOf(expenses: seq<GroupExpense>, groupId: string): (r: seq<GroupExpense>)
    ensures forall e :: e in r <==> e in expenses && e.groupId == groupId && e.isActive
  {
    if expenses == [] then []
    else
      var rest := ActiveExpensesOf(expenses[..|expenses| - 1], groupId);
      var e := expenses[|expenses| - 1];
      assert expenses == expenses[..|expenses| - 1] + [e];
      if e.groupId == groupId && e.isActive then rest + [e] else rest
  }

  /** `find({ groupId, isActive: true, isSettled: false })`. */
  function UnsettledExpensesOf(expenses: seq<GroupExpense>, groupId: string): (r: seq<GroupExpense>)
    ensures forall e :: e in r <==> e in expenses && e.groupId == groupId && e.isActive && !e.isSettled
  {
    if expenses == [] then []
    else
      var rest := UnsettledExpensesOf(expenses[..|expenses| - 1], groupId);
      var e := expenses[|expenses| - 1];
      assert expenses == expenses[..|expenses| - 1] + [e];
      if e.groupId == groupId && e.isActive && !e.isSettled then rest + [e] else rest
  }

  /** The balance of an entry's user as the residual table holds it. */
  function ResidualOf(residual: seq<BalanceEntry>, e: BalanceEntry): Cents {
    match IndexOf(residual, e.userId)
    case Some(p) => residual[p].balance
    case None => e.balance
  }

  /**
   * The balances the settlement response lists as written: the table's own entries, which the
   * matching loop has since mutated, so each `balance` is what is left after the suggestions.
   */
  function ReportedAsWritten(entries: seq<BalanceEntry>, residual: seq<BalanceEntry>): (r: seq<BalanceEntry>)
    ensures |r| == |entries|
  {
    seq(|entries|, k requires 0 <= k < |entries| => entries[k].(balance := ResidualOf(residual, entries[k])))
  }

  /**
   * In the three-member example the response as written reports A's balance as 0, though A
   * owes 30 (owed 30, paid 0).
   */
  lemma ReportedBalanceIsResidual()
    ensures var entries := [BalanceEntry("A", "A", "a@x.com", 0, 3000, 3000),
                            BalanceEntry("B", "B", "b@x.com", 1000, 0, -1000),
                            BalanceEntry("C", "C", "c@x.com", 2000, 0, -2000)];
      var sorted := SortDesc(entries);
      var residual := WithBalances(sorted, Run(Start(Balances(sorted))).bal);
      var reported := ReportedAsWritten(entries, residual);
      reported[0].balance == 0 && reported[0].totalOwed - reported[0].totalPaid == 3000
  {
    var a := BalanceEntry("A", "A", "a@x.com", 0, 3000, 3000);
    var b := BalanceEntry("B", "B", "b@x.com", 1000, 0, -1000);
    var c := BalanceEntry("C", "C", "c@x.com", 2000, 0, -2000);
    var entries := [a, b, c];
    assert entries[..2] == [a, b] && [a, b][..1] == [a] && [a][..0] == [];
    assert SortDesc([a]) == [a];
    assert Insert([a], b) == [a, b];
    assert SortDesc([a, b]) == [a, b];
    assert Insert([b], c) == [b, c];
    assert Insert([a, b], c) == [a, b, c];
    assert SortDesc(entries) == [a, b, c];
    assert Balances([a, b, c]) == [3000, -1000, -2000];
    ThreeMemberExample();
    var residual := WithBalances([a, b, c], [0, 0, 0]);
    assert residual[0] == a.(balance := 0);
  }

  /** The settlement response: the balance table and the suggested payments. */
  datatype SettlementReport = SettlementReport(balances: seq<BalanceEntry>, suggestedSettlements: seq<Suggestion>)

  datatype AddMembersReply = AddMembersReply(group: Group, addedMembers: seq<string>, notFound: seq<string>)

  // ---------------------------------------------------------------- the store

  function IndexOfActiveExpense(expenses: seq<GroupExpense>, id: string): (r: Option<nat>)
    ensures r.Some? ==> r.value < |expenses| && expenses[r.value].expenseId == id && expenses[r.value].isActive
    ensures r.None? ==> forall k :: 0 <= k < |expenses| ==> !(expenses[k].expenseId == id && expenses[k].isActive)
  {
    if expenses == [] then None
    else if expenses[0].expenseId == id && expenses[0].isActive then Some(0)
    else match IndexOfActiveExpense(expenses[1..], id)
      case Some(p) => Some(p + 1)
      case None => None
  }

  function IndexOfActiveSettlement(settlements: seq<Settlement>, id: string): (r: Option<nat>)
    ensures r.Some? ==> r.value < |settlements| && settlements[r.value].settlementId == id && settlements[r.value].isActive
    ensures r.None? ==> forall k :: 0 <= k < |settlements| ==> !(settlements[k].settlementId == id && settlements[k].isActive)
  {
    if settlements == [] then None
    else if settlements[0].settlementId == id && settlements[0].isActive then Some(0)
    else match IndexOfActiveSettlement(settlements[1..], id)
      case Some(p) => Some(p + 1)
      case None => None
  }

  predicate ExpenseIdsUnique(expenses: seq<GroupExpense>) {
    forall i, j :: 0 <= i < j < |expenses| ==> expenses[i].expenseId != expenses[j].expenseId
  }

  lemma AppendKeepsExpenseIdsUnique(expenses: seq<GroupExpense>, e: GroupExpense)
    requires ExpenseIdsUnique(expenses)
    requires forall k :: 0 <= k < |expenses| ==> expenses[k].expenseId != e.expenseId
    ensures ExpenseIdsUnique(expenses + [e])
  {
  }

  /** A prepared expense carries the id it was given, which keeps the id index unique. */
  lemma PreparedKeepsIdsUnique(expenses: seq<GroupExpense>, groups: map<string, Group>, caller: UserId,
                               req: ExpenseRequest, expenseId: string, now: int)
    requires ExpenseIdsUnique(expenses)
    requires forall k :: 0 <= k < |expenses| ==> expenses[k].expenseId != expenseId
    ensures var r := PrepareExpense(groups, caller, req, expenseId, now);
      r.Ok? ==> ExpenseIdsUnique(expenses + [r.value])
  {
    var r := PrepareExpense(groups, caller, req, expenseId, now);
    if r.Ok? {
      AppendKeepsExpenseIdsUnique(expenses, r.value);
    }
  }

  predicate SettlementIdsUnique(settlements: seq<Settlement>) {
    forall i, j :: 0 <= i < j < |settlements| ==> settlements[i].settlementId != settlements[j].settlementId
  }

  /** The group, expense and settlement collections, documents in insertion order. */
  class GroupLedger {
    var groups: map<string, Group>
    var expenses: seq<GroupExpense>
    var settlements: seq<Settlement>

    /** The unique indexes on `expenseId` and `settlementId`. */
    predicate Valid()
      reads this
    {
      ExpenseIdsUnique(expenses) && SettlementIdsUnique(settlements)
    }

    constructor(groups: map<string, Group>)
      ensures Valid()
      ensures this.groups == groups && expenses == [] && settlements == []
    {
      this.groups := groups;
      expenses := [];
      settlements := [];
    }

    /** Add an expense under an id no expense has (the handler probes until it finds one). */
    method AddExpense(caller: UserId, req: ExpenseRequest, expenseId: string, now: int)
      returns (r: Result<GroupExpense>)
      requires Valid()
      requires forall k :: 0 <= k < |expenses| ==> expenses[k].expenseId != expenseId
      modifies this`expenses
      ensures Valid()
      ensures r == PrepareExpense(old(groups), caller, req, expenseId, now)
      ensures expenses == (if r.Ok? then old(expenses) + [r.value] else old(expenses))
    {
      r := PrepareExpense(groups, caller, req, expenseId, now);
      PreparedKeepsIdsUnique(expenses, groups, caller, req, expenseId, now);
      if r.Ok? {
        expenses := expenses + [r.value];
      }
    }

    /** Update an active expense by id. */
    method UpdateExpense(caller: UserId, expenseId: string, p: ExpensePatch, now: int)
      returns (r: Result<GroupExpense>)
      requires Valid()
      modifies this`expenses
      ensures Valid()
      ensures var idx := IndexOfActiveExpense(old(expenses), expenseId);
        && (idx.None? ==> r == Fail(NotFound) && expenses == old(expenses))
        && (idx.Some? ==>
              r == UpdateOutcome(old(groups), old(expenses)[idx.value], caller, p, now)
              && expenses == (if r.Ok? then old(expenses)[idx.value := r.value] else old(expenses)))
    {
      var idx := IndexOfActiveExpense(expenses, expenseId);
      if idx.None? {
        return Fail(NotFound);
      }
      r := UpdateOutcome(groups, expenses[idx.value], caller, p, now);
      if r.Ok? {
        expenses := expenses[idx.value := r.value];
      }
    }

    /** Approve an active expense by id. */
    method ApproveExpense(caller: UserId, expenseId: string, now: int) returns (r: Result<GroupExpense>)
      requires Valid()
      modifies this`expenses
      ensures Valid()
      ensures var idx := IndexOfActiveExpense(old(expenses), expenseId);
        && (idx.None? ==> r == Fail(NotFound) && expenses == old(expenses))
        && (idx.Some? ==>
              r == Approve(old(groups), old(expenses)[idx.value], caller, now)
              && expenses == (if r.Ok? then old(expenses)[idx.value := r.value] else old(expenses)))
    {
      var idx := IndexOfActiveExpense(expenses, expenseId);
      if idx.None? {
        return Fail(NotFound);
      }
      r := Approve(groups, expenses[idx.value], caller, now);
      if r.Ok? {
        expenses := expenses[idx.value := r.value];
      }
    }

    /** Record a settlement under an id no settlement has. */
    method CreateSettlement(caller: UserId, req: SettlementRequest, settlementId: string, now: int)
      returns (r: Result<Settlement>)
      requires Valid()
      requires forall k :: 0 <= k < |settlements| ==> settlements[k].settlementId != settlementId
      modifies this`settlements
      ensures Valid()
      ensures r == PrepareSettlement(old(groups), caller, req, settlementId, now)
      ensures settlements == (if r.Ok? then old(settlements) + [r.value] else old(settlements))
    {
      r := PrepareSettlement(groups, caller, req, settlementId, now);
      if r.Ok? {
        settlements := settlements + [r.value];
      }
    }

    /**
     * Update an active settlement by id; completing one that lists expenses marks every
     * expense with a listed id settled.
     */
    method UpdateSettlementStatus(caller: UserId, settlementId: string, p: SettlementPatch, now: int)
      returns (r: Result<Settlement>)
      requires Valid()
      modifies this`settlements, this`expenses
      ensures Valid()
      ensures var idx := IndexOfActiveSettlement(old(settlements), settlementId);
        && (idx.None? ==> r == Fail(NotFound) && settlements == old(settlements) && expenses == old(expenses))
        && (idx.Some? ==>
              var s := old(settlements)[idx.value];
              && r == SettlementUpdateOutcome(old(groups), s, caller, p)
              && settlements == (if r.Ok? then old(settlements)[idx.value := r.value] else old(settlements))
              && expenses == (if r.Ok? && p.status == Some(Completed) && |s.expenseIds| > 0
                              then Reconcile(old(expenses), s.expenseIds, now) else old(expenses)))
    {
      var idx := IndexOfActiveSettlement(settlements, settlementId);
      if idx.None? {
        return Fail(NotFound);
      }
      var s := settlements[idx.value];
      r := SettlementUpdateOutcome(groups, s, caller, p);
      if r.Fail? {
        return;
      }
      settlements := settlements[idx.value := r.value];
      if p.status == Some(Completed) && |s.expenseIds| > 0 {
        expenses := Reconcile(expenses, s.expenseIds, now);
      }
    }

    /**
     * The settlement calculation: for a member of an active group, the balance table over the
     * group's active, unsettled expenses and the suggestions of the matching loop over that
     * table sorted by balance. The table is reported as tallied (see the findings).
     */
    method CalculateSettlements(caller: UserId, groupId: string) returns (r: Result<SettlementReport>)
      ensures !ActiveGroup(groups, groupId) ==> r == Fail(NotFound)
      ensures ActiveGroup(groups, groupId) && !IsActiveMember(groups[groupId], caller) ==> r == Fail(Forbidden)
      ensures r.Ok? <==> ActiveGroup(groups, groupId) && IsActiveMember(groups[groupId], caller)
      ensures r.Ok? ==>
        var unsettled := UnsettledExpensesOf(expenses, groupId);
        && Tallied(r.value.balances, groups[groupId].members, unsettled)
        && DistinctKeys(r.value.balances)
        && var sorted := SortDesc(r.value.balances);
           var fin := Run(Start(Balances(sorted)));
           && (forall k :: 0 <= k < |fin.transfers| ==> fin.transfers[k].from < |sorted| && fin.transfers[k].to < |sorted|)
           && r.value.suggestedSettlements == Suggestions(sorted, fin.transfers)
    {
      if !ActiveGroup(groups, groupId) {
        return Fail(NotFound);
      }
      var g := groups[groupId];
      if !IsActiveMember(g, caller) {
        return Fail(Forbidden);
      }
      var unsettled := UnsettledExpensesOf(expenses, groupId);
      var table := ComputeBalances(g.members, unsettled);
      var sorted := SortDesc(table);
      var suggestions, residual := MatchDebts(sorted);
      r := Ok(SettlementReport(table, suggestions));
    }

    /**
     * The caller's balance shown with a group (`activeOnly == false`: the group lookup ignores
     * `isActive`) or on its dashboard (`activeOnly == true`), over every active expense of the
     * group, settled or not.
     */
    method UserBalanceInGroup(caller: UserId, groupId: string, activeOnly: bool) returns (r: Result<UserBalance>)
      ensures groupId !in groups || (activeOnly && !groups[groupId].isActive) ==> r == Fail(NotFound)
      ensures groupId in groups && !(activeOnly && !groups[groupId].isActive) && !IsActiveMember(groups[groupId], caller)
        ==> r == Fail(Forbidden)
      ensures r.Ok? <==> groupId in groups && !(activeOnly && !groups[groupId].isActive) && IsActiveMember(groups[groupId], caller)
      ensures r.Ok? ==> var es := ActiveExpensesOf(expenses, groupId);
        r.value.totalPaid == PaidBy(es, caller) && r.value.totalOwed == OwedFirst(es, caller)
        && r.value.balance == r.value.totalOwed - r.value.totalPaid
    {
      if groupId !in groups || (activeOnly && !groups[groupId].isActive) {
        return Fail(NotFound);
      }
      if !IsActiveMember(groups[groupId], caller) {
        return Fail(Forbidden);
      }
      var b := UserBalanceOf(ActiveExpensesOf(expenses, groupId), caller);
      r := Ok(b);
    }

    /** Remove a member (the group lookup ignores `isActive`). */
    method RemoveMember(caller: UserId, groupId: string, memberId: UserId) returns (r: Result<Group>)
      requires Valid()
      modifies this`groups
      ensures Valid()
      ensures groupId !in old(groups) ==> r == Fail(NotFound) && groups == old(groups)
      ensures groupId in old(groups) ==>
        var edit := GroupMembership.RemoveMember(old(groups)[groupId], caller, memberId);
        && (edit.Fail? ==> r == edit)
        && (edit.Ok? && SaveGroup(edit.value).None? ==> r == Fail(SaveRejected))
        && (edit.Ok? && SaveGroup(edit.value).Some? ==> r == Ok(SaveGroup(edit.value).value))
      ensures groups == (if r.Ok? then old(groups)[groupId := r.value] else old(groups))
    {
      if groupId !in groups {
        return Fail(NotFound);
      }
      var edit := GroupMembership.RemoveMember(groups[groupId], caller, memberId);
      if edit.Fail? {
        return edit;
      }
      var saved := SaveGroup(edit.value);
      if saved.None? {
        return Fail(SaveRejected);
      }
      groups := groups[groupId := saved.value];
      r := Ok(saved.value);
    }

    /**
     * Add registered users to a group by e-mail (the group lookup ignores `isActive`): the caller
     * must be a manager, and a batch in which no address resolves to a new member is refused.
     */
    method AddMembers(caller: UserId, groupId: string, emails: seq<string>,
                      local: map<string, Account>, google: map<string, Account>, now: int)
      returns (r: Result<AddMembersReply>)
      requires Valid()
      modifies this`groups
      ensures Valid()
      ensures emails == [] ==> r == Fail(BadRequest)
      ensures emails != [] && groupId !in old(groups) ==> r == Fail(NotFound)
      ensures emails != [] && groupId in old(groups) && !IsManager(old(groups)[groupId], caller) ==> r == Fail(Forbidden)
      ensures emails != [] && groupId in old(groups) && IsManager(old(groups)[groupId], caller) ==>
        var g := old(groups)[groupId];
        var c := CollectDistinct(g.members, Dedupe(emails), local, google);
        && (c.added == [] ==> r == Fail(BadRequest))
        && (c.added != [] ==> (r.Ok? <==> SaveGroup(g.(members := AppendMembers(g.members, c.added, now))).Some?))
        && (c.added != [] && r.Fail? ==> r == Fail(SaveRejected))
      ensures r.Ok? ==>
        var g := old(groups)[groupId];
        var c := CollectDistinct(g.members, Dedupe(emails), local, google);
        && IsManager(g, caller) && c.added != []
        && SaveGroup(g.(members := AppendMembers(g.members, c.added, now))) == Some(r.value.group)
        && r.value.addedMembers == EmailsOf(c.added) && r.value.notFound == c.notFound
      ensures groups == (if r.Ok? then old(groups)[groupId := r.value.group] else old(groups))
    {
      if emails == [] {
        return Fail(BadRequest);
      }
      if groupId !in groups {
        return Fail(NotFound);
      }
      var g := groups[groupId];
      if !IsManager(g, caller) {
        return Fail(Forbidden);
      }
      var c := CollectNewMembers(g.members, Dedupe(emails), local, google);
      if c.added == [] {
        return Fail(BadRequest);
      }
      var saved := SaveGroup(g.(members := AppendMembers(g.members, c.added, now)));
      if saved.None? {
        return Fail(SaveRejected);
      }
      groups := groups[groupId := saved.value];
      r := Ok(AddMembersReply(saved.value, EmailsOf(c.added), c.notFound));
    }
  }
}
