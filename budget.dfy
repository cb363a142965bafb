/**
 * The company budget: running income and expense totals and their
 * difference, the profit, moved by one finance record at a time; each move
 * leaves a history entry holding the totals it started from.
 */
module BudgetService {
  import opened Models
  import opened Utils
  import opened Store

  /** The budget once `change_budget` has applied the finance. The finance it is given has
      not been added to the session, so its id is still None, and the budget's link to a
      finance is cleared rather than set. */
  function Applied(b: Budget, f: Finance): Budget
  {
    var b1 := if f.transactionType == Income then b.(income := b.income + f.amount, profit := b.profit + f.amount) else b;
    var b2 := if f.transactionType == Expense then b1.(expense := b1.expense + f.amount, profit := b1.profit - f.amount) else b1;
    b2.(date := f.date, financeId := None)
  }

  /** The history entry `change_budget` returns: the totals, date and link before the
      change, with the finance's amount and type. */
  function Snapshot(b: Budget, f: Finance): BudgetHistory
  {
    BudgetHistory(b.income, b.expense, b.profit, b.date, f.amount, f.transactionType, b.financeId, b.id)
  }

  /** What a history entry says the totals became: its snapshot with its amount applied. */
  function AfterEntry(h: BudgetHistory): (real, real, real)
  {
    if h.transactionType == Income then (h.income + h.amount, h.expense, h.profit + h.amount)
    else (h.income, h.expense + h.amount, h.profit - h.amount)
  }

  function Totals(b: Budget): (real, real, real)
  {
    (b.income, b.expense, b.profit)
  }

  /** Rebuild the budget as it was before a change from the changed budget and its entry. */
  function Restored(after: Budget, h: BudgetHistory): Budget
  {
    after.(income := h.income, expense := h.expense, profit := h.profit, date := h.date, financeId := h.financeId)
  }

  /** One change: INCOME moves income and profit up and leaves expense alone; EXPENSE moves
      expense up and profit down and leaves income alone; profit = income - expense survives;
      the budget takes the finance's date, and its finance link is left empty; the entry
      undoes the change and its amount redoes it. */
  lemma ChangeBudgetEffect(b: Budget, f: Finance)
    ensures f.transactionType == Income ==>
      Applied(b, f).income == b.income + f.amount && Applied(b, f).expense == b.expense && Applied(b, f).profit == b.profit + f.amount
    ensures f.transactionType == Expense ==>
      Applied(b, f).expense == b.expense + f.amount && Applied(b, f).income == b.income && Applied(b, f).profit == b.profit - f.amount
    ensures b.profit == b.income - b.expense ==> Applied(b, f).profit == Applied(b, f).income - Applied(b, f).expense
    ensures Applied(b, f).date == f.date && Applied(b, f).financeId.None?
    ensures Applied(b, f).id == b.id && Applied(b, f).companyId == b.companyId
    ensures Restored(Applied(b, f), Snapshot(b, f)) == b
    ensures AfterEntry(Snapshot(b, f)) == Totals(Applied(b, f))
  {
  }

  /** The budget after a sequence of `change_budget` calls, in order. */
  function ApplyAll(b: Budget, fs: seq<Finance>): Budget
    decreases |fs|
  {
    if fs == [] then b else ApplyAll(Applied(b, fs[0]), fs[1..])
  }

  /** The history entries that sequence produces, in order. */
  function HistoryAll(b: Budget, fs: seq<Finance>): seq<BudgetHistory>
    decreases |fs|
  {
    if fs == [] then [] else [Snapshot(b, fs[0])] + HistoryAll(Applied(b, fs[0]), fs[1..])
  }

  /** The sum of the amounts of the finances of one type. */
  function AmountTotal(fs: seq<Finance>, kind: TransactionType): real
    decreases |fs|
  {
    if fs == [] then 0.0 else (if fs[0].transactionType == kind then fs[0].amount else 0.0) + AmountTotal(fs[1..], kind)
  }

  /** Over any sequence of finances: income grows by the INCOME amounts, expense by the
      EXPENSE amounts, profit = income - expense holds at the end when it held at the
      start, one history entry per finance, and the budget keeps its id and company. */
  lemma {:induction false} BudgetTotals(b: Budget, fs: seq<Finance>)
    ensures ApplyAll(b, fs).income == b.income + AmountTotal(fs, Income)
    ensures ApplyAll(b, fs).expense == b.expense + AmountTotal(fs, Expense)
    ensures b.profit == b.income - b.expense ==> ApplyAll(b, fs).profit == ApplyAll(b, fs).income - ApplyAll(b, fs).expense
    ensures |HistoryAll(b, fs)| == |fs|
    ensures ApplyAll(b, fs).id == b.id && ApplyAll(b, fs).companyId == b.companyId
    decreases |fs|
  {
    if fs != [] {
      BudgetTotals(Applied(b, fs[0]), fs[1..]);
    }
  }

  /** With non-negative amounts the income and expense totals never decrease. */
  lemma {:induction false} TotalsNeverDecrease(b: Budget, fs: seq<Finance>)
    requires forall i :: 0 <= i < |fs| ==> fs[i].amount >= 0.0
    ensures ApplyAll(b, fs).income >= b.income && ApplyAll(b, fs).expense >= b.expense
    decreases |fs|
  {
    if fs != [] {
      TotalsNeverDecrease(Applied(b, fs[0]), fs[1..]);
    }
  }

  /** A history trail explains how totals went from `start` to `final`: each entry's
      snapshot is where the previous one left off, and the last one leads to `final`. */
  ghost predicate Explains(start: (real, real, real), hs: seq<BudgetHistory>, final: (real, real, real))
    decreases |hs|
  {
    if hs == [] then start == final
    else (hs[0].income, hs[0].expense, hs[0].profit) == start && Explains(AfterEntry(hs[0]), hs[1..], final)
  }

  /** Replaying the history forward from its first entry reproduces the current totals,
      and every entry names the budget. */
  lemma {:induction false} HistoryReproducesBudget(b: Budget, fs: seq<Finance>)
    ensures Explains(Totals(b), HistoryAll(b, fs), Totals(ApplyAll(b, fs)))
    ensures forall i :: 0 <= i < |HistoryAll(b, fs)| ==> HistoryAll(b, fs)[i].budgetId == b.id
    decreases |fs|
  {
    if fs != [] {
      var next := Applied(b, fs[0]);
      HistoryReproducesBudget(next, fs[1..]);
      ChangeBudgetEffect(b, fs[0]);
      assert HistoryAll(b, fs) == [Snapshot(b, fs[0])] + HistoryAll(next, fs[1..]);
    }
  }

  /** The finance link is never filled in: after any change it is empty, and so is the
      link every history entry but the first records. */
  lemma {:induction false} FinanceLinkStaysEmpty(b: Budget, fs: seq<Finance>)
    ensures fs != [] ==> ApplyAll(b, fs).financeId.None?
    ensures forall i :: 0 < i < |HistoryAll(b, fs)| ==> HistoryAll(b, fs)[i].financeId.None?
    decreases |fs|
  {
    if fs != [] {
      var next := Applied(b, fs[0]);
      FinanceLinkStaysEmpty(next, fs[1..]);
      assert HistoryAll(b, fs) == [Snapshot(b, fs[0])] + HistoryAll(next, fs[1..]);
      if fs[1..] != [] {
        assert HistoryAll(next, fs[1..])[0] == Snapshot(next, fs[1..][0]);
      }
    }
  }

  /** `create_budget`'s record: all totals zero, dated `now`, no finance linked. */
  function NewBudget(id: Id, companyId: Id, now: Time): (r: Budget)
    ensures r.income == 0.0 && r.expense == 0.0 && r.profit == 0.0
    ensures r.profit == r.income - r.expense
    ensures r.id == id && r.companyId == companyId && r.date == now && r.financeId.None?
  {
    Budget(id, 0.0, 0.0, 0.0, now, companyId, None)
  }

  const BudgetRoles := Roles([Director, Admin])

  /** `_get_budget`: the budget of the company of a DIRECTOR or ADMIN (None when the
      company has none). */
  function GetBudget(users: map<Id, User>, budgets: map<Id, Budget>, userId: Id): (r: Result<Option<Budget>>)
    ensures r.Ok? <==> userId in users && users[userId].companyId.Some? && users[userId].role in {Director, Admin}
    ensures r.Err? ==> r.error == CheckUserPermission(users, userId, BudgetRoles).error
    ensures r.Ok? ==> var cid := users[userId].companyId.value;
      r.value == if cid in budgets then Some(budgets[cid]) else None
  {
    match CheckUserPermission(users, userId, BudgetRoles)
    case Err(e) => Err(e)
    case Ok(user) =>
      var cid := user.companyId.value;
      Ok(if cid in budgets then Some(budgets[cid]) else None)
  }

  /** `create_budget`: files a zeroed budget for the company. */
  method CreateBudget(s: Session, companyId: Id, now: Time) returns (b: Budget)
    requires s.Valid()
    modifies s
    ensures s.Valid() && s.nextId == old(s.nextId) + 1
    ensures b == NewBudget(old(s.nextId), companyId, now)
    ensures s.db == old(s.db).(budgets := old(s.db.budgets)[companyId := b])
  {
    var id := s.NewId();
    b := Budget(id, 0.0, 0.0, 0.0, now, companyId, None);
    s.db := s.db.(budgets := s.db.budgets[companyId := b]);
  }

  /** `change_budget`: applies the finance to the company's budget in place and returns
      the entry holding the state before. */
  method ChangeBudget(s: Session, companyId: Id, f: Finance) returns (h: BudgetHistory)
    requires s.Valid() && companyId in s.db.budgets
    modifies s
    ensures s.Valid() && s.nextId == old(s.nextId)
    ensures s.db == old(s.db).(budgets := old(s.db.budgets)[companyId := Applied(old(s.db.budgets[companyId]), f)])
    ensures h == Snapshot(old(s.db.budgets[companyId]), f)
  {
    var budget := s.db.budgets[companyId];
    h := BudgetHistory(budget.income, budget.expense, budget.profit, budget.date, f.amount, f.transactionType, budget.financeId, budget.id);
    if f.transactionType == Income {
      budget := budget.(income := budget.income + f.amount, profit := budget.profit + f.amount);
    }
    if f.transactionType == Expense {
      budget := budget.(expense := budget.expense + f.amount, profit := budget.profit - f.amount);
    }
    budget := budget.(date := f.date, financeId := None);
    s.db := s.db.(budgets := s.db.budgets[companyId := budget]);
  }
}
