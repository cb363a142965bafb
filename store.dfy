/**
 * The database session: the tables, updated in place, and the id sequence.
 * A transaction that fails is rolled back by restoring the tables it saw at
 * its start; like a database sequence, the id counter is not rolled back.
 */
module Store {
  import opened Models

  class Session {
    var db: Db
    var nextId: Id

    ghost predicate Valid()
      reads this
    {
      Consistent(db, nextId)
    }

    constructor (tables: Db, next: Id)
      requires Consistent(tables, next)
      ensures Valid() && db == tables && nextId == next
    {
      db := tables;
      nextId := next;
    }

    /** The id the database assigns to the next record that is inserted. */
    method NewId() returns (id: Id)
      requires Valid()
      modifies this
      ensures Valid() && db == old(db)
      ensures id == old(nextId) && nextId == old(nextId) + 1
    {
      id := nextId;
      nextId := nextId + 1;
    }

    /** `session.rollback()`: every table goes back to the saved state. */
    method Rollback(saved: Db)
      requires Consistent(saved, nextId)
      modifies this
      ensures Valid() && db == saved && nextId == old(nextId)
    {
      db := saved;
    }

    method AddBalanceHistory(h: BalanceHistory)
      requires Valid()
      modifies this
      ensures Valid() && nextId == old(nextId)
      ensures db == old(db).(balanceHistory := old(db.balanceHistory) + [h])
    {
      db := db.(balanceHistory := db.balanceHistory + [h]);
    }

    method AddBudgetHistory(h: BudgetHistory)
      requires Valid()
      modifies this
      ensures Valid() && nextId == old(nextId)
      ensures db == old(db).(budgetHistory := old(db.budgetHistory) + [h])
    {
      db := db.(budgetHistory := db.budgetHistory + [h]);
    }

    method AddFinance(f: Finance)
      requires Valid() && f.id < nextId
      modifies this
      ensures Valid() && nextId == old(nextId)
      ensures db == old(db).(finances := old(db.finances)[f.id := f])
    {
      db := db.(finances := db.finances[f.id := f]);
    }

    method AddInvoice(inv: Invoice)
      requires Valid() && inv.id < nextId
      modifies this
      ensures Valid() && nextId == old(nextId)
      ensures db == old(db).(invoices := old(db.invoices)[inv.id := inv])
    {
      db := db.(invoices := db.invoices[inv.id := inv]);
    }
  }
}
