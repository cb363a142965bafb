/**
 * Finance records: an income or expense of a company, entered by a
 * DIRECTOR or ADMIN, which moves the company budget; a replenishment also
 * credits the company balance.
 */
module FinanceService {
  import opened Models
  import opened Utils
  import opened Store
  import opened BalanceService
  import opened BudgetService

  const FinanceRoles := Roles([Admin, Director])

  /** The tables once the finance `f` of company `cid` has been entered: the budget
      moved, its entry appended, the finance filed. */
  function Entered(db: Db, cid: Id, f: Finance): Db
    requires cid in db.budgets
  {
    db.(budgets := db.budgets[cid := Applied(db.budgets[cid], f)],
        budgetHistory := db.budgetHistory + [Snapshot(db.budgets[cid], f)],
        finances := db.finances[f.id := f])
  }

  /** What `_create_finance` does to the tables `before` when `id` is the next id: a caller
      who is not a DIRECTOR or ADMIN of a company is refused, a company without a
      budget fails dereferencing it, and otherwise the finance is entered. Nothing
      changes on failure. */
  ghost predicate FinanceRecorded(before: Db, id: Id, userId: Id, data: FinanceInput, r: Result<Finance>, after: Db)
  {
    var perm := CheckUserPermission(before.users, userId, FinanceRoles);
    if perm.Err? then r == Err(perm.error) && after == before
    else
      var cid := perm.value.companyId.value;
      if cid !in before.budgets then r == Err(NoneAttribute) && after == before
      else
        var f := Finance(id, data.amount, data.date, data.transactionType, cid);
        r == Ok(f) && after == Entered(before, cid, f)
  }

  /** Entering a finance moves only the company's budget, as `change_budget` does, and adds
      one budget entry, whose snapshot undoes the move, and the finance itself; the
      balances, users, products and invoices are untouched. */
  lemma RecordedFinanceEffect(before: Db, id: Id, userId: Id, data: FinanceInput, r: Result<Finance>, after: Db)
    requires FinanceRecorded(before, id, userId, data, r, after) && r.Ok?
    ensures userId in before.users && before.users[userId].companyId == Some(r.value.companyId)
    ensures r.value.id == id && r.value.amount == data.amount && r.value.transactionType == data.transactionType
    ensures r.value.companyId in before.budgets && r.value.companyId in after.budgets
    ensures data.transactionType == Income ==>
      && after.budgets[r.value.companyId].income == before.budgets[r.value.companyId].income + data.amount
      && after.budgets[r.value.companyId].expense == before.budgets[r.value.companyId].expense
    ensures data.transactionType == Expense ==>
      && after.budgets[r.value.companyId].expense == before.budgets[r.value.companyId].expense + data.amount
      && after.budgets[r.value.companyId].income == before.budgets[r.value.companyId].income
    ensures var b := before.budgets[r.value.companyId]; var a := after.budgets[r.value.companyId];
      b.profit == b.income - b.expense ==> a.profit == a.income - a.expense
    ensures after.budgets[r.value.companyId].financeId.None?
    ensures Restored(after.budgets[r.value.companyId], after.budgetHistory[|after.budgetHistory| - 1]) == before.budgets[r.value.companyId]
    ensures |after.budgetHistory| == |before.budgetHistory| + 1 && after.budgetHistory[..|before.budgetHistory|] == before.budgetHistory
    ensures after.finances == before.finances[id := r.value]
    ensures forall c :: c in before.budgets && c != r.value.companyId ==> c in after.budgets && after.budgets[c] == before.budgets[c]
    ensures after.balances == before.balances && after.users == before.users
    ensures after.products == before.products && after.invoices == before.invoices
  {
    var cid := before.users[userId].companyId.value;
    ChangeBudgetEffect(before.budgets[cid], r.value);
  }

  /** `_create_finance`, inside its savepoint. */
  method RecordFinance(s: Session, userId: Id, data: FinanceInput) returns (r: Result<Finance>)
    requires s.Valid()
    modifies s
    ensures s.Valid()
    ensures FinanceRecorded(old(s.db), old(s.nextId), userId, data, r, s.db)
    ensures r.Ok? <==> CheckUserPermission(old(s.db.users), userId, FinanceRoles).Ok?
                       && old(s.db.users[userId].companyId.value) in old(s.db.budgets)
    ensures s.nextId == old(s.nextId) + (if r.Ok? then 1 else 0)
  {
    var perm := CheckUserPermission(s.db.users, userId, FinanceRoles);
    if perm.Err? {
      return Err(perm.error);
    }
    var cid := perm.value.companyId.value;
    r := CreateFinance(s, data, cid);
  }

  /** `create_finance`: builds the finance for the company and moves its budget. The tables
      are only changed once the budget is known to exist. */
  method CreateFinance(s: Session, data: FinanceInput, cid: Id) returns (r: Result<Finance>)
    requires s.Valid()
    modifies s
    ensures s.Valid()
    ensures cid !in old(s.db.budgets) ==> r == Err(NoneAttribute) && s.db == old(s.db) && s.nextId == old(s.nextId)
    ensures cid in old(s.db.budgets) ==>
      && r == Ok(Finance(old(s.nextId), data.amount, data.date, data.transactionType, cid))
      && s.db == Entered(old(s.db), cid, r.value)
      && s.nextId == old(s.nextId) + 1
  {
    if cid !in s.db.budgets {
      return Err(NoneAttribute);
    }
    var id := s.NewId();
    var finance := Finance(id, data.amount, data.date, data.transactionType, cid);
    var h := ChangeBudget(s, cid, finance);
    s.AddBudgetHistory(h);
    s.AddFinance(finance);
    r := Ok(finance);
  }

  /** `create_finances`: enters one finance and returns it. */
  method CreateFinances(s: Session, userId: Id, data: FinanceInput) returns (r: Result<Finance>)
    requires s.Valid()
    modifies s
    ensures s.Valid()
    ensures FinanceRecorded(old(s.db), old(s.nextId), userId, data, r, s.db)
  {
    r := RecordFinance(s, userId, data);
  }

  /** `replenish_balance`: enters the finance and credits its amount to the company balance
      as INCOME, whatever type the finance has; a company without a balance fails
      dereferencing it, and the transaction is rolled back. */
  method ReplenishBalance(s: Session, userId: Id, data: FinanceInput) returns (r: Result<Finance>)
    requires s.Valid()
    modifies s
    ensures s.Valid() && s.nextId >= old(s.nextId)
    ensures r.Ok? <==> && CheckUserPermission(old(s.db.users), userId, FinanceRoles).Ok?
                       && old(s.db.users[userId].companyId.value) in old(s.db.budgets)
                       && CompanyOwner(old(s.db.users[userId].companyId.value)) in old(s.db.balances)
    ensures r.Err? ==> s.db == old(s.db)
    ensures s.db.balances.Keys == old(s.db.balances.Keys)
    ensures r.Ok? ==>
      var cid := old(s.db.users[userId].companyId.value);
      var f := r.value;
      var recorded := Entered(old(s.db), cid, f);
      var owner := CompanyOwner(cid);
      var change := Change(f.amount, Income, f.date, None, Some(f.id));
      && FinanceRecorded(old(s.db), old(s.nextId), userId, data, r, recorded)
      && s.db == recorded.(balances := recorded.balances[owner := Changed(recorded.balances[owner], change)],
                           balanceHistory := recorded.balanceHistory + [Entry(recorded.balances[owner], change)])
      && s.db.balances[owner].balance == old(s.db.balances[owner].balance) + data.amount
  {
    var saved := s.db;
    r := RecordFinance(s, userId, data);
    if r.Err? {
      return;
    }
    var finance := r.value;
    var owner := CompanyOwner(finance.companyId);
    if owner !in s.db.balances {
      s.Rollback(saved);
      return Err(NoneAttribute);
    }
    var h := ChangeBalance(s, finance.amount, Income, finance.date, owner, None, Some(finance.id));
    s.AddBalanceHistory(h);
  }
}
