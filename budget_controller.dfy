/**
 * The budget handlers: creation with its checks and defaults, the spending metrics shown with
 * every budget, partial updates, the hard delete and the period summary.
 */
module BudgetController {
  import opened Results
  import opened Money
  import opened Text
  import opened BudgetModel

  // ---------------------------------------------------------------- spending

  datatype TransactionType = Income | Expense

  /** A transaction as the spending aggregate sees it. */
  datatype Transaction = Transaction(userId: string, category: string, kind: TransactionType, amount: Cents, date: int)

  /** The transactions the aggregate matches: the user's expenses in the category, dated inside the budget. */
  predicate Counts(t: Transaction, user: string, b: Budget) {
    t.userId == user && t.category == b.category && t.kind == Expense && b.startDate <= t.date <= b.endDate
  }

  /** `$sum` of the matched amounts; 0 when nothing matches. */
  function Spent(txs: seq<Transaction>, user: string, b: Budget): (r: Cents)
    ensures (forall k :: 0 <= k < |txs| ==> !Counts(txs[k], user, b)) ==> r == 0
    ensures (forall k :: 0 <= k < |txs| ==> txs[k].amount >= 0) ==> r >= 0
  {
    if txs == [] then 0
    else
      var last := txs[|txs| - 1];
      Spent(txs[..|txs| - 1], user, b) + (if Counts(last, user, b) then last.amount else 0)
  }

  /** A transaction outside the budget's window, category, user or kind leaves its spending unchanged. */
  lemma {:induction false} SpentIgnoresNonMatching(txs: seq<Transaction>, t: Transaction, user: string, b: Budget)
    requires !Counts(t, user, b)
    ensures Spent(txs + [t], user, b) == Spent(txs, user, b)
  {
    assert (txs + [t])[..|txs|] == txs;
  }

  // ---------------------------------------------------------------- metrics

  /** `amount > 0 ? spent / amount * 100 : 0`. */
  function PercentageUsed(amount: Cents, spent: Cents): (r: real)
    ensures amount > 0 ==> r * amount as real == spent as real * 100.0
    ensures amount <= 0 ==> r == 0.0
  {
    if amount > 0 then spent as real / amount as real * 100.0 else 0.0
  }

  /** The figures shown with a budget; `alert` is `alertStatus == "alert"`. */
  datatype Metrics = Metrics(spent: Cents, remaining: Cents, percentageUsed: real, isOverBudget: bool, alert: bool)

  /**
   * The metrics of the list and detail views. The alert compares the unrounded percentage; only
   * the reported percentage is rounded to two decimals.
   */
  function MetricsOf(b: Budget, spent: Cents): (m: Metrics)
    ensures m.spent == spent && m.remaining + m.spent == b.amount
    ensures m.isOverBudget <==> m.remaining < 0
    ensures m.alert <==> PercentageUsed(b.amount, spent) >= b.alertThreshold
    ensures PercentageUsed(b.amount, spent) - 0.005 < m.percentageUsed <= PercentageUsed(b.amount, spent) + 0.005
  {
    var pct := PercentageUsed(b.amount, spent);
    Metrics(spent, b.amount - spent, Round2(pct), spent > b.amount, pct >= b.alertThreshold)
  }

  /** With a positive amount, the alert fires exactly when the spending reaches the threshold's share of it. */
  lemma AlertIffThresholdReached(b: Budget, spent: Cents)
    requires b.amount > 0
    ensures MetricsOf(b, spent).alert <==> spent as real * 100.0 >= b.alertThreshold * b.amount as real
  {
    var pct := PercentageUsed(b.amount, spent);
    var a := b.amount as real;
    assert pct * a == spent as real * 100.0;
    if pct >= b.alertThreshold {
      assert pct * a >= b.alertThreshold * a;
    } else {
      assert pct * a < b.alertThreshold * a;
    }
  }

  /** Over budget means a percentage above 100, and an empty budget never alerts above a positive threshold. */
  lemma OverBudgetMeansOverHundred(b: Budget, spent: Cents)
    ensures b.amount > 0 ==> (MetricsOf(b, spent).isOverBudget <==> PercentageUsed(b.amount, spent) > 100.0)
    ensures b.amount <= 0 && b.alertThreshold > 0.0 ==> !MetricsOf(b, spent).alert
  {
    if b.amount > 0 {
      var pct := PercentageUsed(b.amount, spent);
      var a := b.amount as real;
      assert pct * a == spent as real * 100.0;
      if pct > 100.0 {
        assert pct * a > 100.0 * a;
      } else {
        assert pct * a <= 100.0 * a;
      }
    }
  }

  /** 79.996 % of a budget is reported as 80 % while the status with an 80 % threshold stays normal. */
  lemma ReportedPercentageCanShowThresholdWithoutAlert(b: Budget)
    requires b.amount == 100000 && b.alertThreshold == 80.0
    ensures MetricsOf(b, 79996).percentageUsed == 80.0 && !MetricsOf(b, 79996).alert
  {
    var pct := PercentageUsed(b.amount, 79996);
    assert pct == 79.996;
    assert RoundHalfUp(pct * 100.0) == 8000;
  }

  // ---------------------------------------------------------------- creation

  /**
   * The fields of a create request. `amount == 0`, an empty string and `None` stand for a
   * missing value; `alertThreshold == 0.0` is missing as well, as `||` reads it.
   */
  datatype BudgetRequest = BudgetRequest(
    category: string, categoryId: string, amount: Cents, period: Option<Period>,
    startDate: Option<int>, endDate: Option<int>, rollover: bool, alertThreshold: real,
    template: string, notes: string)

  /** `x || null` on a string. */
  function OrNull(s: string): (r: Option<string>)
    ensures r.None? <==> s == []
  {
    if s == [] then None else Some(s)
  }

  /** An active budget of the user with the same trimmed category, period and both dates. */
  predicate HasDuplicate(store: seq<Budget>, user: string, req: BudgetRequest) {
    exists k :: 0 <= k < |store| && store[k].userId == user && store[k].category == Trim(req.category)
      && Some(store[k].period) == req.period && Some(store[k].startDate) == req.startDate
      && Some(store[k].endDate) == req.endDate && store[k].isActive
  }

  predicate CreateFieldsPresent(req: BudgetRequest) {
    req.category != [] && req.amount != 0 && req.period.Some? && req.startDate.Some? && req.endDate.Some?
  }

  /**
   * The create handler: required fields, a positive amount, ordered dates and no active
   * duplicate, then the document with its defaults, saved and admitted by the unique index.
   */
  function PrepareBudget(store: seq<Budget>, user: string, req: BudgetRequest, budgetId: string): (r: Result<Budget>)
    ensures !CreateFieldsPresent(req) || req.amount < 0 ==> r == Fail(BadRequest)
    ensures CreateFieldsPresent(req) && req.endDate.value < req.startDate.value ==> r == Fail(BadRequest)
    ensures CreateFieldsPresent(req) && HasDuplicate(store, user, req) ==> r == Fail(BadRequest)
    ensures r.Ok? ==> CreateFieldsPresent(req) && !HasDuplicate(store, user, req)
    ensures r.Ok? ==> FieldsValid(r.value) && DatesOrdered(r.value) && IndexAdmits(store, r.value)
    ensures CreateFieldsPresent(req) && req.amount > 0 && req.startDate.value <= req.endDate.value
            && !HasDuplicate(store, user, req) ==>
      var doc := Normalized(BudgetDraft(user, req, budgetId));
      && (r.Ok? <==> FieldsValid(doc) && IndexAdmits(store, doc))
      && (r.Ok? ==> r.value == doc)
      && (r.Fail? ==> r.failure == SaveRejected)
  {
    if !CreateFieldsPresent(req) then Fail(BadRequest)
    else if req.amount <= 0 then Fail(BadRequest)
    else if req.endDate.value < req.startDate.value then Fail(BadRequest)
    else if HasDuplicate(store, user, req) then Fail(BadRequest)
    else
      match SaveBudget(BudgetDraft(user, req, budgetId))
      case Fail(f) => Fail(f)
      case Ok(saved) => if IndexAdmits(store, saved) then Ok(saved) else Fail(SaveRejected)
  }

  /** The new document: the trimmed category, the default threshold, `|| null` on the optional strings, active. */
  function BudgetDraft(user: string, req: BudgetRequest, budgetId: string): Budget
    requires CreateFieldsPresent(req)
  {
    var threshold := if req.alertThreshold == 0.0 then DefaultAlertThreshold else req.alertThreshold;
    Budget(budgetId, user, Trim(req.category), OrNull(req.categoryId), req.amount, req.period.value,
      req.startDate.value, req.endDate.value, req.rollover, threshold, true, OrNull(req.template), OrNull(req.notes))
  }

  /** A created budget carries the request's fields, its defaults filled in, and is active. */
  lemma PreparedBudgetFields(store: seq<Budget>, user: string, req: BudgetRequest, budgetId: string)
    requires PrepareBudget(store, user, req, budgetId).Ok?
    ensures var b := PrepareBudget(store, user, req, budgetId).value;
      && b.budgetId == budgetId && b.userId == user && b.isActive
      && b.amount == req.amount > 0 && b.category == Trim(req.category)
      && b.period == req.period.value && b.startDate == req.startDate.value && b.endDate == req.endDate.value
      && b.alertThreshold == (if req.alertThreshold == 0.0 then DefaultAlertThreshold else req.alertThreshold)
      && b.rollover == req.rollover && b.categoryId == OrNull(req.categoryId)
      && b.template == OrNull(req.template) && b.notes == OrNull(req.notes)
  {
    TrimIdempotent(req.category);
  }

  /**
   * The duplicate check is finer than the index: a budget that differs from a stored one in its
   * end date (and amount) passes the check and is refused by the index.
   */
  lemma DuplicateCheckFinerThanIndex(stored: Budget, budgetId: string)
    requires FieldsValid(stored) && DatesOrdered(stored) && Trim(stored.category) == stored.category
    ensures var req := BudgetRequest(stored.category, "", stored.amount + 1, Some(stored.period),
                                     Some(stored.startDate), Some(stored.endDate + 1), false, 50.0, "", "");
      !HasDuplicate([stored], stored.userId, req)
      && PrepareBudget([stored], stored.userId, req, budgetId) == Fail(SaveRejected)
  {
    var req := BudgetRequest(stored.category, "", stored.amount + 1, Some(stored.period),
                             Some(stored.startDate), Some(stored.endDate + 1), false, 50.0, "", "");
    var b := Budget(budgetId, stored.userId, stored.category, None, stored.amount + 1, stored.period,
      stored.startDate, stored.endDate + 1, false, 50.0, true, None, None);
    assert Normalized(b) == b;
    assert SaveBudget(b) == Ok(b);
    assert KeyOf([stored][0]) == KeyOf(b);
  }

  // ---------------------------------------------------------------- update

  /** The supplied fields of an update; `categoryId == Some("")` stores null, as `|| null` does. */
  datatype BudgetPatch = BudgetPatch(
    category: Option<string>, categoryId: Option<string>, amount: Option<Cents>, period: Option<Period>,
    startDate: Option<int>, endDate: Option<int>, rollover: Option<bool>, alertThreshold: Option<real>,
    template: Option<Option<string>>, notes: Option<Option<string>>, isActive: Option<bool>)

  /** `$set` of exactly the supplied fields, the category trimmed. */
  function ApplyBudgetPatch(b: Budget, p: BudgetPatch): (r: Budget)
    ensures r.budgetId == b.budgetId && r.userId == b.userId
    ensures p == BudgetPatch(None, None, None, None, None, None, None, None, None, None, None) ==> r == b
  {
    b.(category := if p.category.Some? then Trim(p.category.value) else b.category,
       categoryId := if p.categoryId.Some? then OrNull(p.categoryId.value) else b.categoryId,
       amount := p.amount.GetOr(b.amount),
       period := p.period.GetOr(b.period),
       startDate := p.startDate.GetOr(b.startDate),
       endDate := p.endDate.GetOr(b.endDate),
       rollover := p.rollover.GetOr(b.rollover),
       alertThreshold := p.alertThreshold.GetOr(b.alertThreshold),
       template := p.template.GetOr(b.template),
       notes := p.notes.GetOr(b.notes),
       isActive := p.isActive.GetOr(b.isActive))
  }

  /** Every supplied field is written: the category trimmed, an empty category id stored as null. */
  lemma BudgetPatchWritesSupplied(b: Budget, p: BudgetPatch)
    ensures var r := ApplyBudgetPatch(b, p);
      && (p.category.Some? ==> r.category == Trim(p.category.value))
      && (p.categoryId.Some? ==> r.categoryId == OrNull(p.categoryId.value))
      && (p.amount.Some? ==> r.amount == p.amount.value)
      && (p.period.Some? ==> r.period == p.period.value)
      && (p.startDate.Some? ==> r.startDate == p.startDate.value)
      && (p.endDate.Some? ==> r.endDate == p.endDate.value)
      && (p.rollover.Some? ==> r.rollover == p.rollover.value)
      && (p.alertThreshold.Some? ==> r.alertThreshold == p.alertThreshold.value)
      && (p.template.Some? ==> r.template == p.template.value)
      && (p.notes.Some? ==> r.notes == p.notes.value)
      && (p.isActive.Some? ==> r.isActive == p.isActive.value)
  {
  }

  /** Every field the request leaves out keeps its stored value. */
  lemma BudgetPatchKeepsAbsent(b: Budget, p: BudgetPatch)
    ensures var r := ApplyBudgetPatch(b, p);
      && (p.category.None? ==> r.category == b.category)
      && (p.categoryId.None? ==> r.categoryId == b.categoryId)
      && (p.amount.None? ==> r.amount == b.amount)
      && (p.period.None? ==> r.period == b.period)
      && (p.startDate.None? ==> r.startDate == b.startDate)
      && (p.endDate.None? ==> r.endDate == b.endDate)
      && (p.rollover.None? ==> r.rollover == b.rollover)
      && (p.alertThreshold.None? ==> r.alertThreshold == b.alertThreshold)
      && (p.template.None? ==> r.template == b.template)
      && (p.notes.None? ==> r.notes == b.notes)
      && (p.isActive.None? ==> r.isActive == b.isActive)
  {
  }

  /**
   * The update of a found budget: the dates are compared only when both are supplied; the
   * field validators and the index guard the write (the date-order hook is a save hook).
   */
  function UpdateOutcome(others: seq<Budget>, b: Budget, p: BudgetPatch): (r: Result<Budget>)
    ensures p.startDate.Some? && p.endDate.Some? && p.endDate.value < p.startDate.value ==> r == Fail(BadRequest)
    ensures r.Ok? ==> r.value == ApplyBudgetPatch(b, p) && FieldsValid(r.value) && IndexAdmits(others, r.value)
    ensures (!(p.startDate.Some? && p.endDate.Some? && p.endDate.value < p.startDate.value)
             && FieldsValid(ApplyBudgetPatch(b, p)) && IndexAdmits(others, ApplyBudgetPatch(b, p))) ==> r.Ok?
  {
    if p.startDate.Some? && p.endDate.Some? && p.endDate.value < p.startDate.value then Fail(BadRequest)
    else
      var u := ApplyBudgetPatch(b, p);
      if FieldsValid(u) && IndexAdmits(others, u) then Ok(u) else Fail(SaveRejected)
  }

  /** Supplying only an end date before the stored start is accepted, leaving the dates reversed. */
  lemma UpdateCanReverseDates(others: seq<Budget>, b: Budget)
    requires FieldsValid(b) && IndexAdmits(others, b)
    ensures var p := BudgetPatch(None, None, None, None, None, Some(b.startDate - 1), None, None, None, None, None);
      var r := UpdateOutcome(others, b, p);
      r.Ok? && !DatesOrdered(r.value)
  {
    var p := BudgetPatch(None, None, None, None, None, Some(b.startDate - 1), None, None, None, None, None);
    assert KeyOf(ApplyBudgetPatch(b, p)) == KeyOf(b);
  }

  // ---------------------------------------------------------------- the summary

  /** A row of the summary: unlike the list view its percentage is not rounded and it has no alert. */
  datatype SummaryRow = SummaryRow(budget: Budget, spent: Cents, remaining: Cents, percentageUsed: real, isOverBudget: bool)

  datatype Summary = Summary(
    period: Period, totalBudget: Cents, totalSpent: Cents, totalRemaining: Cents,
    overallPercentageUsed: real, budgets: seq<SummaryRow>)

  function RowOf(b: Budget, spent: Cents): SummaryRow {
    SummaryRow(b, spent, b.amount - spent, PercentageUsed(b.amount, spent), spent > b.amount)
  }

  function TotalAmount(bs: seq<Budget>): Cents {
    if bs == [] then 0 else TotalAmount(bs[..|bs| - 1]) + bs[|bs| - 1].amount
  }

  function TotalSpent(bs: seq<Budget>, txs: seq<Transaction>, user: string): Cents {
    if bs == [] then 0 else TotalSpent(bs[..|bs| - 1], txs, user) + Spent(txs, user, bs[|bs| - 1])
  }

  function TotalRemaining(rows: seq<SummaryRow>): Cents {
    if rows == [] then 0 else TotalRemaining(rows[..|rows| - 1]) + rows[|rows| - 1].remaining
  }

  /** The user's active budgets of the period whose dates overlap the window. */
  function SummaryBudgets(store: seq<Budget>, user: string, period: Period, windowStart: int, windowEnd: int): (r: seq<Budget>)
    ensures forall b :: b in r <==> (b in store && b.userId == user && b.period == period && b.isActive
                                     && b.startDate <= windowEnd && b.endDate >= windowStart)
  {
    if store == [] then []
    else
      var rest := SummaryBudgets(store[..|store| - 1], user, period, windowStart, windowEnd);
      var b := store[|store| - 1];
      assert store == store[..|store| - 1] + [b];
      if b.userId == user && b.period == period && b.isActive && b.startDate <= windowEnd && b.endDate >= windowStart
      then rest + [b] else rest
  }

  /** The rows of the summary, one per budget in order. */
  function Rows(bs: seq<Budget>, txs: seq<Transaction>, user: string): (r: seq<SummaryRow>)
    ensures |r| == |bs|
    ensures forall k :: 0 <= k < |bs| ==> r[k] == RowOf(bs[k], Spent(txs, user, bs[k]))
  {
    if bs == [] then [] else Rows(bs[..|bs| - 1], txs, user) + [RowOf(bs[|bs| - 1], Spent(txs, user, bs[|bs| - 1]))]
  }

  /** The summary's remaining total is the sum of the rows' remaining amounts. */
  lemma {:induction false} RemainingTotalsAgree(bs: seq<Budget>, txs: seq<Transaction>, user: string)
    ensures TotalRemaining(Rows(bs, txs, user)) == TotalAmount(bs) - TotalSpent(bs, txs, user)
  {
    if bs != [] {
      var pre := bs[..|bs| - 1];
      RemainingTotalsAgree(pre, txs, user);
      var rows := Rows(bs, txs, user);
      assert rows[..|rows| - 1] == Rows(pre, txs, user);
    }
  }

  // ---------------------------------------------------------------- the store

  function IndexOfBudget(store: seq<Budget>, budgetId: string, user: string): (r: Option<nat>)
    ensures r.Some? ==> r.value < |store| && store[r.value].budgetId == budgetId && store[r.value].userId == user
    ensures r.None? ==> forall k :: 0 <= k < |store| ==> !(store[k].budgetId == budgetId && store[k].userId == user)
  {
    if store == [] then None
    else if store[0].budgetId == budgetId && store[0].userId == user then Some(0)
    else match IndexOfBudget(store[1..], budgetId, user)
      case Some(p) => Some(p + 1)
      case None => None
  }

  predicate BudgetIdsUnique(store: seq<Budget>) {
    forall i, j :: 0 <= i < j < |store| ==> store[i].budgetId != store[j].budgetId
  }

  /** A budget with the metrics computed from the transactions. */
  datatype BudgetView = BudgetView(budget: Budget, metrics: Metrics)

  /** The summary loop: the two running totals and a row per budget. */
  method TallyBudgets(bs: seq<Budget>, txs: seq<Transaction>, user: string)
    returns (totalBudget: Cents, totalSpent: Cents, rows: seq<SummaryRow>)
    ensures totalBudget == TotalAmount(bs) && totalSpent == TotalSpent(bs, txs, user)
    ensures rows == Rows(bs, txs, user)
  {
    totalBudget := 0;
    totalSpent := 0;
    rows := [];
    for n := 0 to |bs|
      invariant totalBudget == TotalAmount(bs[..n])
      invariant totalSpent == TotalSpent(bs[..n], txs, user)
      invariant rows == Rows(bs[..n], txs, user)
    {
      assert bs[..n + 1][..n] == bs[..n];
      var spent := Spent(txs, user, bs[n]);
      totalBudget := totalBudget + bs[n].amount;
      totalSpent := totalSpent + spent;
      rows := rows + [RowOf(bs[n], spent)];
    }
    assert bs[..|bs|] == bs;
  }

  /** With no budget in the summary the overall percentage shows as 0. */
  lemma EmptyTotalShowsZero(totalBudget: Cents, totalSpent: Cents)
    ensures totalBudget == 0 ==> Round2(PercentageUsed(totalBudget, totalSpent)) == 0.0
  {
    RoundHalfUpOfInteger(0);
  }

  /** The budget collection in insertion order. */
  class BudgetStore {
    var budgets: seq<Budget>

    predicate Valid()
      reads this
    {
      BudgetIdsUnique(budgets) && UniqueIndex(budgets)
    }

    constructor()
      ensures Valid() && budgets == []
    {
      budgets := [];
    }

    /** Create a budget under an id no budget has (the handler probes until it finds one). */
    method Create(user: string, req: BudgetRequest, budgetId: string) returns (r: Result<Budget>)
      requires Valid()
      requires forall k :: 0 <= k < |budgets| ==> budgets[k].budgetId != budgetId
      modifies this
      ensures Valid()
      ensures r == PrepareBudget(old(budgets), user, req, budgetId)
      ensures budgets == (if r.Ok? then old(budgets) + [r.value] else old(budgets))
    {
      r := PrepareBudget(budgets, user, req, budgetId);
      if r.Ok? {
        AppendKeepsUniqueIndex(budgets, r.value);
        budgets := budgets + [r.value];
      }
    }

    /** One of the user's budgets with its metrics. */
    method Get(user: string, budgetId: string, txs: seq<Transaction>) returns (r: Result<BudgetView>)
      ensures IndexOfBudget(budgets, budgetId, user).None? ==> r == Fail(NotFound)
      ensures r.Ok? ==> r.value.budget in budgets && r.value.budget.budgetId == budgetId && r.value.budget.userId == user
      ensures r.Ok? ==> r.value.metrics == MetricsOf(r.value.budget, Spent(txs, user, r.value.budget))
      ensures var idx := IndexOfBudget(budgets, budgetId, user);
        idx.Some? ==> r.Ok? && r.value.budget == budgets[idx.value]
    {
      var idx := IndexOfBudget(budgets, budgetId, user);
      if idx.None? {
        return Fail(NotFound);
      }
      var b := budgets[idx.value];
      r := Ok(BudgetView(b, MetricsOf(b, Spent(txs, user, b))));
    }

    /** Update one of the user's budgets. */
    method Update(user: string, budgetId: string, p: BudgetPatch) returns (r: Result<Budget>)
      requires Valid()
      modifies this
      ensures Valid()
      ensures var idx := IndexOfBudget(old(budgets), budgetId, user);
        && (idx.None? ==> r == Fail(NotFound) && budgets == old(budgets))
        && (idx.Some? ==>
              var others := old(budgets)[..idx.value] + old(budgets)[idx.value + 1..];
              && r == UpdateOutcome(others, old(budgets)[idx.value], p)
              && budgets == (if r.Ok? then old(budgets)[idx.value := r.value] else old(budgets)))
    {
      var idx := IndexOfBudget(budgets, budgetId, user);
      if idx.None? {
        return Fail(NotFound);
      }
      var k := idx.value;
      var others := budgets[..k] + budgets[k + 1..];
      r := UpdateOutcome(others, budgets[k], p);
      if r.Ok? {
        ReplaceKeepsUniqueIndex(budgets, k, r.value);
        var updated := budgets[k := r.value];
        assert forall i, j :: 0 <= i < j < |updated| ==> updated[i].budgetId != updated[j].budgetId;
        budgets := updated;
      }
    }

    /** Delete one of the user's budgets for good: the document is removed, the others keep their order. */
    method Delete(user: string, budgetId: string) returns (r: Result<Budget>)
      requires Valid()
      modifies this
      ensures Valid()
      ensures var idx := IndexOfBudget(old(budgets), budgetId, user);
        && (idx.None? ==> r == Fail(NotFound) && budgets == old(budgets))
        && (idx.Some? ==>
              r == Ok(old(budgets)[idx.value]) && budgets == old(budgets)[..idx.value] + old(budgets)[idx.value + 1..])
      ensures forall b :: b in budgets ==> b in old(budgets)
      ensures forall b :: b in budgets ==> b.budgetId != budgetId || b.userId != user
    {
      var idx := IndexOfBudget(budgets, budgetId, user);
      if idx.None? {
        return Fail(NotFound);
      }
      var k := idx.value;
      r := Ok(budgets[k]);
      var rest := budgets[..k] + budgets[k + 1..];
      forall i, j | 0 <= i < j < |rest|
        ensures rest[i].budgetId != rest[j].budgetId && KeyOf(rest[i]) != KeyOf(rest[j])
      {
        var i0 := if i < k then i else i + 1;
        var j0 := if j < k then j else j + 1;
        assert rest[i] == budgets[i0] && rest[j] == budgets[j0];
      }
      forall b | b in rest
        ensures b.budgetId != budgetId || b.userId != user
      {
        var i :| 0 <= i < |rest| && rest[i] == b;
        var i0 := if i < k then i else i + 1;
        assert rest[i] == budgets[i0];
      }
      budgets := rest;
    }

    /**
     * The period summary: the user's active budgets of the period overlapping the window, each
     * with its spending, and the totals; the overall percentage is 0 for an empty total.
     */
    method GetSummary(user: string, period: Option<Period>, windowStart: int, windowEnd: int, txs: seq<Transaction>)
      returns (s: Summary)
      ensures var bs := SummaryBudgets(budgets, user, period.GetOr(Monthly), windowStart, windowEnd);
        && s.period == period.GetOr(Monthly)
        && s.totalBudget == TotalAmount(bs) && s.totalSpent == TotalSpent(bs, txs, user)
        && s.budgets == Rows(bs, txs, user)
        && s.totalRemaining == s.totalBudget - s.totalSpent
        && s.overallPercentageUsed == Round2(PercentageUsed(s.totalBudget, s.totalSpent))
      ensures s.totalRemaining == TotalRemaining(s.budgets)
      ensures s.totalBudget == 0 ==> s.overallPercentageUsed == 0.0
    {
      var current := period.GetOr(Monthly);
      var bs := SummaryBudgets(budgets, user, current, windowStart, windowEnd);
      var totalBudget, totalSpent, rows := TallyBudgets(bs, txs, user);
      RemainingTotalsAgree(bs, txs, user);
      EmptyTotalShowsZero(totalBudget, totalSpent);
      s := Summary(current, totalBudget, totalSpent, totalBudget - totalSpent,
                   Round2(PercentageUsed(totalBudget, totalSpent)), rows);
    }
  }
}
