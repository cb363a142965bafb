# Ledger core of the business backend, in Dafny

This project models the part of the FastAPI business backend that moves money and
stock, and proves properties of that model. It covers:

- **Balances.** A balance belongs to a user or a company. `change_balance` changes it
  one transaction at a time and returns a history entry that holds the state from
  before the change.
- **Budgets.** A company budget keeps income, expense and profit totals. `change_budget`
  applies one finance record to them and snapshots the previous totals.
- **Stock.** `create_products` restocks: it matches products by name, overwrites the
  existing ones and creates the rest. `sell_products` sells: it makes two stock checks,
  then both quantities drop.
- **Finance records.** `create_finance` and `_create_finance` move the budget.
  `replenish_balance` also credits the company balance.
- **Invoices.** A company invoice is a purchase: it restocks and debits the company
  balance. A user invoice is a sale: it sells stock, may debit the buyer's balance, and
  records income in the budget. Each invoice runs in one transaction that is rolled
  back on any exception.
- **Guards.** Record lookup, company membership, role permission, and the
  classification of commit errors.
- **Membership transitions.** These give users a company, a branch ("worker") and a
  role.

How it is modelled:

- **Tables.** All tables form one value, `Models.Db`. Rows that the source updates in
  place are map or sequence entries that get reassigned.
- **Session.** One `Store.Session` object holds the tables and the id sequence. Its
  invariant: every id is below the sequence, each user is filed under its own id, and no
  two products share an id (the primary key).
- **Methods and specifications.** The services are methods on the session. Each method
  states its new state through a pure function: `Changed`/`Entry` for a balance step,
  `Applied`/`Snapshot` for a budget step, `SellStep`/`SellRun` for a sale,
  `RestockStep`/`RestockRun` for a restock, `Entered` for a finance, and
  `CompanyInvoiceTables`/`UserInvoiceTables` for invoices.
- **Lemmas.** The properties are proved as lemmas about those functions: conservation,
  profit = income − expense, undo of a step from its history entry, stock bounds, and
  "last line wins" totals.
- **Transactions.** A failing transaction restores the tables it started from. The id
  sequence is not rolled back, as with a database sequence.
- **Errors.** Python exceptions the code runs into are `Error` variants:
  `UnboundTotal`, `NoneAttribute`, `NotIterable`, `UnexpectedKeyword` and
  `IntegrityFailure`.
- **Truthiness.** Python truthiness of ids (`if data.user_id`, `elif worker_id`) is
  `Models.Truthy`, which treats both None and 0 as absent.
- **Types.** Money (`Numeric(20,3)`) and quantities (`Float`) are `real`.

Five facts about the code as written are proved here beyond the findings below:

- **Nothing is ever on sale.** A new product starts at sale quantity 0, and a restock
  keeps the stored value (`ProductService.RestockNeverRaisesSaleQuantity`). Every
  operation that writes products keeps `ProductService.NothingOnSale` (every row at sale
  quantity 0). While it holds, every sale with a line fails and changes no row
  (`ProductService.NoSaleWhileNothingOnSale`), and so does every user invoice with a line
  (`InvoiceService.NoUserSaleWhileNothingOnSale`). A negative sale line would raise a
  sale quantity, but only on a row that is already on sale.
- **Restock can break the stock bound.** A restock overwrites `quantity` but not
  `sale_quantity`, so it can break 0 ≤ sale_quantity ≤ quantity
  (`ProductService.RestockCanBreakStockBound`). The name lookup is global, across
  companies.
- **No user ever has a balance.** `create_balance` is called only for a company, by
  `create_company` (app/company/service.py:54). Every transition keeps
  `BalanceService.OnlyCompanyBalances`. So reading a USER balance always fails
  (`BalanceService.UserBalanceNeverFound`). Every user invoice that names a buyer fails
  too, when it dereferences the buyer's missing balance (`InvoiceService.NamedBuyerNeverSucceeds`).
- **The budget's finance link is always empty.** `change_budget` stores the id of a
  finance that has not been added to the session yet, which is None. So every change
  clears the link (`BudgetService.FinanceLinkStaysEmpty`).
- **Branch users are locked out.**
  - The first two branch roles:
    - WORKER_DIRECTOR is handed out only to users that `check_user_company` admits,
      that is, to users with no company.
    - WORKER_ADMIN is handed out on the same condition.
  - No transition gives a branch user a company (`Utils.WorkerRolesHaveNoCompany` is
    kept by every transition).
  - The third, WORKER_USER, is handed out by none of them.
  - So `check_user` rejects every branch user (`Utils.WorkerRolesLockedOut`).
  - As a result, `sell_products`, the branch `add_user` and the branch `delete_user`
    admit nobody who reached a branch role through these services.

Where the data models and the services disagree (field names, relationships, roles),
the model follows the services.

## Model

| member | source | states |
|---|---|---|
| Utils.GetInDb | app/utils.py:14-25 | a lookup succeeds exactly when the key is in the table, returns that row, and otherwise fails with a 400 naming the key |
| Utils.CheckUser | app/utils.py:77-89 | succeeds exactly for an existing user with a company and returns that user; a missing user is not found, a user without a company is refused |
| Utils.CheckUserPermission | app/utils.py:92-108 | membership is checked first, even for '__all__'; a member whose role is not listed gets 403; otherwise the same user is returned |
| Utils.CheckUserCompany | app/utils.py:111-125 | succeeds exactly for an existing user with no company; a user already in a company is refused |
| Utils.MembershipGuardsAreComplementary | app/utils.py:77-125 | for an existing user exactly one of `check_user` and `check_user_company` passes |
| Utils.PermissionIsMonotone | app/utils.py:92-108 | listing more roles never rejects a caller that fewer roles admitted, and '__all__' admits exactly the company members |
| Utils.CheckUnique | app/utils.py:53-74 | a unique violation raises 400 after a rollback, a foreign-key violation raises 401, a numeric overflow raises 400, any other DataError or IntegrityError is swallowed |
| Utils.WorkerRolesLockedOut | app/utils.py:77-108 | while no branch user has a company, a guard listing only branch roles admits nobody, and `check_user` refuses every branch user as not in a company |
| BalanceService.EntryUndoesChange | app/balance/service.py:123-142 | the entry of a change holds the previous amount, date and links, so the change can be undone from it; its amount and type redo the change |
| BalanceService.Conservation | app/balance/service.py:114-144 | over any sequence of changes the final amount is the initial one plus the INCOME amounts minus all others, with one entry per change; nothing prevents a negative amount |
| BalanceService.HistoryExplainsBalance | app/balance/service.py:123-136 | replaying the history entries from the first previous amount reproduces the current amount, and every entry names the balance |
| BalanceService.NewBalance | app/balance/service.py:103-109 | a new balance is 0, has no date or links, and has exactly one owner: the user for USER, the company otherwise |
| BalanceService.GetBalanceOwner | app/balance/service.py:77-94 | a USER owner is any existing user; a company owner requires a company member with role ADMIN or DIRECTOR |
| BalanceService.GetBalance | app/balance/service.py:21-39 | the owner's balance is returned; an owner without a balance is refused |
| BalanceService.CreateBalance | app/balance/service.py:97-111 | the new zero balance takes the next id and is filed under its owner; nothing else changes; a company balance keeps `OnlyCompanyBalances` |
| BalanceService.UserBalanceNeverFound | app/balance/service.py:21-39 | while only companies have balances, reading a USER balance fails: not found for a missing user, no balance yet for an existing one |
| BalanceService.ChangeBalance | app/balance/service.py:114-144 | INCOME adds the amount and any other type subtracts it; the date becomes the given one; a link is replaced only when given; the entry holds the state before; it never fails |
| BudgetService.ChangeBudgetEffect | app/budget/service.py:78-96 | INCOME raises income and profit and keeps expense; EXPENSE raises expense, lowers profit and keeps income; profit = income − expense survives; the date becomes the finance's and the finance link is cleared, since the unflushed finance has no id yet; the snapshot undoes the change and with its amount redoes it |
| BudgetService.BudgetTotals | app/budget/service.py:88-93 | over any sequence of finances income grows by the INCOME amounts and expense by the EXPENSE amounts, profit = income − expense is kept, and there is one entry per finance |
| BudgetService.FinanceLinkStaysEmpty | app/budget/service.py:95-96 | after any sequence of changes the finance link is empty, and so is the link in every history entry but the first |
| BudgetService.TotalsNeverDecrease | app/budget/service.py:88-93 | with non-negative amounts neither income nor expense ever decreases |
| BudgetService.HistoryReproducesBudget | app/budget/service.py:78-96 | replaying the budget history from its first snapshot reproduces the current totals, and every entry names the budget |
| BudgetService.NewBudget | app/budget/service.py:63-69 | a new budget has income = expense = profit = 0, today's date and no finance link |
| BudgetService.GetBudget | app/budget/service.py:46-55 | reading a budget requires a company member with role DIRECTOR or ADMIN, and returns that company's budget |
| BudgetService.CreateBudget | app/budget/service.py:58-70 | the zero budget takes the next id and is filed under the company; nothing else changes |
| BudgetService.ChangeBudget | app/budget/service.py:73-98 | the company's budget is replaced by the applied one, with its finance link cleared, and the returned entry is the snapshot from before; nothing else changes |
| FinanceService.RecordedFinanceEffect | app/finances/service.py:86-122 | an entered finance carries the input fields and the caller's company; it moves that budget once, as the budget step does, and leaves its finance link empty; it adds one entry and the finance; balances, users, products and invoices are untouched |
| FinanceService.RecordFinance | app/finances/service.py:86-105 | an ADMIN or DIRECTOR of a company with a budget enters the finance; anyone else, or a company without a budget, fails with nothing changed |
| FinanceService.CreateFinance | app/finances/service.py:108-122 | the finance is built from the input and the company id, and the company's budget is changed exactly once; without a budget it fails with nothing changed |
| FinanceService.CreateFinances | app/finances/service.py:46-52 | enters one finance as `_create_finance` does, which changes the budget but no balance |
| FinanceService.ReplenishBalance | app/finances/service.py:54-72 | the finance is entered and the company balance rises by its amount as INCOME whatever the finance's type, linked to the finance; a missing balance rolls both changes back |
| ProductService.FindById | app/products/service.py:172-176 | the row found by id is the first with that id; none is found only when no row has it |
| ProductService.FindByName | app/products/service.py:122-126 | the row found by name is the first with that name; none is found only when no row has it |
| ProductService.FindByIdKeepsUnderUpdate | app/products/service.py:191-192 | rewriting a row without changing its id changes no lookup by id |
| ProductService.FindByNameKeepsUnderUpdate | app/products/service.py:135-136 | rewriting a row without changing its name changes no lookup by name |
| ProductService.SellStep | app/products/service.py:171-199 | a sale line fails when the product is missing, has sale quantity 0, or has less than requested (naming both amounts); otherwise quantity and sale quantity drop by the requested amount, nothing else changes, the line carries the sold amount and `to_pay` is this line's price |
| ProductService.SaleKeepsStockBounded | app/products/service.py:178-192 | for non-negative requests, 0 ≤ sale_quantity ≤ quantity on every row before a sale implies the same after it, even when it stops part-way |
| ProductService.SaleTakesRequestedAmounts | app/products/service.py:191-192 | a sale that succeeds takes from each row exactly the total requested of its product, from both quantities, and changes nothing else |
| ProductService.SaleLinesFollowRequests | app/products/service.py:195-199 | one sold product and one line per request, in request order, each line with the product's id and the sold amount |
| ProductService.SaleTotalIsLastLine | app/products/service.py:169-193 | the sale total is the last line's sale price times its amount, not a sum, and 0 for an empty list |
| ProductService.NoSaleWhileNothingOnSale | app/products/service.py:171-199 | while every row has sale quantity 0, a sale changes no row, and one with any line fails |
| ProductService.SaleNeedsSaleQuantity | app/products/service.py:178-182 | a line whose product has sale quantity 0 stops the sale with the product's name and changes nothing |
| ProductService.SellProducts | app/products/service.py:152-201 | a WORKER_USER or WORKER_ADMIN sells the lines in order until one fails; a missing list fails after the permission check; the rows and result are those of the sale run; a sale that succeeds takes from each row exactly the total requested of its product |
| ProductService.SellLine | app/products/service.py:171-199 | one loop pass on the session has exactly the effect and result of the sale step |
| ProductService.RestockStepEffect | app/products/service.py:121-147 | a product found by name has its fields overwritten by the line, quantity included, and keeps id, sale quantity and owners; otherwise a new product gets sale quantity 0, the caller's user and company, and the next id |
| ProductService.RestockTotalIsLastLine | app/products/service.py:119-149 | a restock returns one id per line, the ids before it kept, and its total is the last line's purchase price times quantity, or 0 with no lines |
| ProductService.FirstLineProductKept | app/products/service.py:122-144 | the product the first line returns is in the table after the whole restock, under the returned id and with the line's name |
| ProductService.RestockReturnsLineProducts | app/products/service.py:119-147 | the i-th returned id belongs to a product in the table afterwards, existing or new, that carries line i's name |
| ProductService.RestockKeepsNothingOnSale | app/products/service.py:128-144 | a restock of a table with nothing on sale leaves nothing on sale, new rows included |
| ProductService.RestockNeverRaisesSaleQuantity | app/products/service.py:128-144 | over a whole restock existing rows keep their sale quantity, id, name and owners, and every new row starts at 0 and belongs to the caller |
| ProductService.RestockCanBreakStockBound | app/products/service.py:135-136 | restocking less than is on sale leaves sale_quantity above quantity |
| ProductService.RestockPermissionAsWritten | app/products/service.py:114-118 | the permission call as written fails for every caller with an unexpected keyword |
| ProductService.RestockPermission | app/products/service.py:114-118 | the corrected check admits exactly a company member whose role is DIRECTOR or ADMIN |
| ProductService.RestockPermissionDiscrepancy | app/products/service.py:114-118 | a caller the invoice guard admits is refused by the check as written and admitted by the corrected one |
| ProductService.CreateProducts | app/products/service.py:108-149 | with the corrected check, the rows become those of the restock run, new products appended with consecutive new ids; a refused caller changes nothing |
| ProductService.RestockLine | app/products/service.py:121-147 | one loop pass on the session has exactly the effect of the restock step |
| ProductService.InStock | app/products/service.py:54-64 | the listing holds exactly the company's rows with a positive quantity, in table order |
| ProductService.GetProducts | app/products/service.py:43-64 | after the permission check (default roles when none are given) the caller's company's products with positive quantity are listed, in table order |
| ProductService.GetProduct | app/products/service.py:25-41 | after the permission check the product with the id is returned, or not found |
| ProductService.UpdateProduct | app/products/service.py:66-79 | a DIRECTOR or ADMIN sets the sale price of an existing product; nothing else on it, and no other row, changes |
| InvoiceService.GetUserInvoice | app/invoice/service.py:21-42 | the user must exist and the invoice must be theirs; otherwise 400 naming the invoice |
| InvoiceService.CreateCompanyInvoiceAsWritten | app/invoice/service.py:112-154 | as written a company invoice always fails and changes nothing: refused callers get the guard's error, no lines give an unbound total, any lines give the restock's unexpected keyword |
| InvoiceService.CreateCompanyInvoice | app/invoice/service.py:112-154 | a non-manager fails with nothing changed; no lines leave `to_pay` unbound; otherwise restock, debit of the company balance by `to_pay` as EXPENSE linked to the invoice, one entry, and the invoice with that `to_pay`; any failure changes nothing |
| InvoiceService.CompanyInvoiceMovesMoney | app/invoice/service.py:132-149 | the company balance drops by `to_pay`, links the invoice and gains exactly one entry; no other balance and no budget changes; the stored `to_pay` is the restock total; the i-th listed product is in the table afterwards with line i's name |
| InvoiceService.UserInvoiceMovesMoney | app/invoice/service.py:189-197 | a named buyer is debited `to_pay` with exactly one entry; an anonymous sale touches no balance; no company balance and no other owner's balance changes |
| InvoiceService.UserInvoiceFailsUnlessItSucceeds | app/invoice/service.py:156-214 | the failures, in the order the flow meets them, are absent exactly when the invoice goes through |
| InvoiceService.NamedBuyerNeverSucceeds | app/invoice/service.py:189-195 | while only companies have balances, a user invoice naming a buyer never goes through |
| InvoiceService.NoUserSaleWhileNothingOnSale | app/invoice/service.py:174-179 | while every product has sale quantity 0, a user invoice with any line never goes through |
| InvoiceService.UserInvoiceEntersIncome | app/invoice/service.py:199-211 | the company budget gains `to_pay` as income with one entry, and its expense is kept |
| InvoiceService.UserInvoiceRecordsSale | app/invoice/service.py:174-186 | the invoice carries the seller's company and branch and the sale's `to_pay`, which is the last line's total or 0 with no lines |
| InvoiceService.CreateUserInvoice | app/invoice/service.py:156-214 | a truthy buyer must exist; the seller sells; the invoice is filed; a named buyer is debited as EXPENSE; an INCOME finance of `to_pay` enters the budget; a failure returns the first error met (missing buyer, guard, missing lines as not iterable, the failing sale line, missing buyer balance, missing budget) and changes nothing |
| CompanyService.CreateCompany | app/company/service.py:38-65 | a user in no company founds a company under an unused name and becomes its DIRECTOR; a zero balance and an all-zero budget are filed for it |
| CompanyService.UpdateCompany | app/company/service.py:67-79 | a DIRECTOR renames their company; a name held by another company fails at the uncaught commit and a missing company row fails to dereference |
| CompanyService.Released | app/company/service.py:87-89 | exactly the company's members become CUSTOMER with no company; everyone else is untouched |
| CompanyService.ReleasedLeavesNoMember | app/company/service.py:85-91 | after dissolution nobody belongs to the company, every former member may join a company again, and releasing twice changes nothing more |
| CompanyService.DeleteCompany | app/company/service.py:81-91 | DIRECTOR only; every member becomes CUSTOMER with no company and the company row goes |
| CompanyService.AddUser | app/company/service.py:93-109 | a DIRECTOR or ADMIN gives a user with no company the caller's company and role ADMIN |
| CompanyService.DeleteUser | app/company/service.py:111-133 | a DIRECTOR or ADMIN removes an existing user, who is left with no company and role CUSTOMER, unless the deletion check refuses |
| WorkerService.GetWorker | app/worker/service.py:145-164 | a WORKER_DIRECTOR resolves to their own branch; others need a truthy branch id, without which they get 400, and a missing branch is not found |
| WorkerService.BranchLookupDependsOnRole | app/worker/service.py:150-163 | a WORKER_DIRECTOR gets the same branch whatever id is given, and for other roles only the id matters |
| WorkerService.GetBranch | app/worker/service.py:18-31 | a branch or company manager looks up a branch as `_get_worker` does |
| WorkerService.CreateWorker | app/worker/service.py:33-59 | a DIRECTOR founds a branch of their company under an unused name; the designated user, who must have no company, points to it as WORKER_DIRECTOR and still has no company |
| WorkerService.Dismissed | app/worker/service.py:90-91 | exactly the branch's users become CUSTOMER; everyone else is untouched |
| WorkerService.DismissedHoldNoRole | app/worker/service.py:88-93 | after dissolution every former branch user is CUSTOMER, nobody changes company, and dismissing twice changes nothing more |
| WorkerService.DeleteWorker | app/worker/service.py:83-93 | DIRECTOR only; a truthy branch id is required; every user of the branch becomes CUSTOMER and the branch row goes |
| WorkerService.AddUser | app/worker/service.py:95-109 | a WORKER_DIRECTOR or WORKER_ADMIN gives a user with no company the caller's branch and role WORKER_ADMIN |
| WorkerService.DeleteUser | app/worker/service.py:111-131 | a WORKER_DIRECTOR or WORKER_ADMIN removes a company member, who is left with no branch and role CUSTOMER, unless the deletion check refuses |

## Left out

- Authentication, password hashing and tokens are not modelled. The current user's id is an input to every operation.
- HTTP routing, request serializers and response shapes are not modelled. A request body is a datatype of its fields.
- Decimal and float precision and rounding are not modelled. Money and quantities are `real`.
- The clock is not modelled. `datetime.now()` in `create_budget` is the parameter `now`, and every other instant is an input.
- Session mechanics are not modelled: `begin`, `begin_nested`, `commit`, `refresh`, flush order, lazy loading and autoflush. A transaction either returns the new tables or restores the old ones.
- Store.Session.NewId: one sequence is shared by all tables, whereas the database gives each autoincrement table its own. An id is handed out when the record is built, not at flush. The ids used therefore follow the order in which records are built.
- InvoiceService.CreateCompanyInvoice: the balance is linked to the invoice's id. In the source the invoice has not been flushed when `change_balance` reads `invoice.id`, so the stored link may be empty.
- InvoiceService.CreateUserInvoice: the same applies to the balance link to the invoice. The per-line product data that the source returns beside the invoice is kept in the sale's `lines` but not returned.
- Commit-time checks are modelled only where the services meet them: product names unique at the company-invoice commit, company and branch names unique when saved, and a company rename at the uncaught commit. Foreign-key and numeric-range failures inside the flows are not modelled.
- BalanceService.CreateBalance: a second balance for the same owner overwrites the first under its key, whereas the source inserts another row. The only caller opens the balance of a new company.
- CompanyService.DeleteCompany: rows that reference the deleted company (balance, budget, branches, finances, products) are left as they are. The database's ON DELETE rules and the ORM's handling of them are not modelled.
- WorkerService.DeleteWorker: the branch users keep their `worker_id`, as the service code leaves it. The ORM may clear it when it deletes the branch; that is not modelled.
- `utils.check_delete_status` is not part of this model. Its verdict is the `deleteAllowed` parameter of both `delete_user` operations.
- `update_products` (a loop of `_update_product` calls), `update_worker`, `get_company`, `get_user_invoices`, `get_company_invoice` and the period queries (`get_balance_history`, `get_budget_history`, `get_finances`, `get_company_invoices`) are not modelled. They are read-only date filters, or repeat operations that are modelled.
- The `print` call in the branch `delete_user` is output only, so it is not modelled.
- app/utils/validator.py repeats `check_unique` and `is_none_check`, so `Utils.CheckUnique` covers it.

## Findings

| source | as written | input that shows it | evidently intended | confidence | as-written member | corrected member |
|---|---|---|---|---|---|---|
| app/products/service.py:114-118 | `create_products` passes the keyword `user=` to `check_user_permission`, which declares `user_id` (app/utils.py:92-96). The call raises TypeError for every caller, so every company invoice with at least one line fails and rolls back. | a DIRECTOR of a company with a balance posts a company invoice with one product line | check the caller's id against DIRECTOR and ADMIN, then restock | not executed | ProductService.RestockPermissionAsWritten | ProductService.RestockPermission |
