/**
 * Invoices: a purchase by the company (restock, debit of the company
 * balance) and a sale to a user (sale, debit of the buyer's balance, income
 * in the company budget), each all-or-nothing: any failure rolls every
 * table back.
 */
module InvoiceService {
  import opened Models
  import opened Utils
  import opened Store
  import opened BalanceService
  import opened BudgetService
  import opened FinanceService
  import opened ProductService

  const InvoiceRoles := Roles([Director, Admin])

  /** The body of a company invoice: its date and the purchased lines. */
  datatype CompanyInvoiceInput = CompanyInvoiceInput(date: Time, products: seq<NewProduct>)

  /** The body of a user invoice: its date, the buyer if any, and the sold lines if any. */
  datatype UserInvoiceInput = UserInvoiceInput(date: Time, buyer: Option<Id>, products: Option<seq<SellRequest>>)

  /** The unique constraint on product names, which the commit enforces. */
  predicate NamesUnique(rows: seq<Product>)
  {
    forall i, j | 0 <= i < j < |rows| :: rows[i].name != rows[j].name
  }

  /** `get_user_invoice`: the user must exist, and the invoice must be one of theirs. */
  function GetUserInvoice(users: map<Id, User>, invoices: map<Id, Invoice>, invoiceId: Id, userId: Id): (r: Result<Invoice>)
    ensures userId !in users ==> r == Err(RecordNotFound(userId))
    ensures userId in users ==> (r.Ok? <==> invoiceId in invoices && invoices[invoiceId].userId == Some(userId))
    ensures r.Ok? ==> r.value == invoices[invoiceId]
    ensures userId in users && r.Err? ==> r.error == InvoiceNotFound(invoiceId) && Status(r.error) == Some(400)
  {
    match GetInDb(users, userId)
    case Err(e) => Err(e)
    case Ok(_) =>
      if invoiceId in invoices && invoices[invoiceId].userId == Some(userId) then Ok(invoices[invoiceId])
      else Err(InvoiceNotFound(invoiceId))
  }

  // ------------------------------------------------------ company invoice

  /** `create_company_invoice` as written: the restock's own permission check raises
      TypeError, and with no lines `to_pay` is read unbound, so it always fails and
      rolls back. */
  method CreateCompanyInvoiceAsWritten(s: Session, userId: Id, data: CompanyInvoiceInput) returns (r: Result<Invoice>)
    requires s.Valid()
    modifies s
    ensures s.Valid() && s.db == old(s.db) && r.Err?
    ensures CheckUserPermission(old(s.db.users), userId, InvoiceRoles).Err? ==>
      r.error == CheckUserPermission(old(s.db.users), userId, InvoiceRoles).error
    ensures CheckUserPermission(old(s.db.users), userId, InvoiceRoles).Ok? ==>
      r.error == if data.products == [] then UnboundTotal else UnexpectedKeyword
  {
    var saved := s.db;
    var perm := CheckUserPermission(s.db.users, userId, InvoiceRoles);
    if perm.Err? {
      s.Rollback(saved);
      return Err(perm.error);
    }
    if data.products != [] {
      var check := RestockPermissionAsWritten(s.db.users, perm.value);
      s.Rollback(saved);
      return Err(check.error);
    }
    s.Rollback(saved);
    r := Err(UnboundTotal);
  }

  /** The restock a company invoice makes, when the invoice takes `invoiceId` and the new
      products the ids after it. */
  ghost function CompanyRestock(db: Db, invoiceId: Id, userId: Id, data: CompanyInvoiceInput): Restock
    requires userId in db.users
  {
    RestockRun(Restock(db.products, [], [], 0.0, invoiceId + 1), data.products, userId, db.users[userId].companyId)
  }

  /** When a company invoice goes through: the caller is a DIRECTOR or ADMIN of a company,
      there is at least one line, the company has a balance, and the commit finds no two
      products with one name. */
  ghost predicate CompanyInvoiceSucceeds(db: Db, invoiceId: Id, userId: Id, data: CompanyInvoiceInput)
  {
    && CheckUserPermission(db.users, userId, InvoiceRoles).Ok?
    && data.products != []
    && CompanyOwner(db.users[userId].companyId.value) in db.balances
    && var run := CompanyRestock(db, invoiceId, userId, data);
       NamesUnique(run.rows + run.created)
  }

  /** The invoice record of a company invoice that goes through. */
  ghost function CompanyInvoice(db: Db, invoiceId: Id, userId: Id, data: CompanyInvoiceInput): Invoice
    requires userId in db.users
  {
    var run := CompanyRestock(db, invoiceId, userId, data);
    Invoice(invoiceId, data.date, None, db.users[userId].companyId, None, run.toPay, run.ids)
  }

  /** The tables after a company invoice that goes through: products restocked, the company
      balance debited as EXPENSE with the invoice linked, the invoice filed. */
  ghost function CompanyInvoiceTables(db: Db, invoiceId: Id, userId: Id, data: CompanyInvoiceInput): Db
    requires CompanyInvoiceSucceeds(db, invoiceId, userId, data)
  {
    var run := CompanyRestock(db, invoiceId, userId, data);
    var owner := CompanyOwner(db.users[userId].companyId.value);
    var restocked := db.(products := run.rows + run.created);
    Posted(restocked, owner, Change(run.toPay, Expense, data.date, Some(invoiceId), None))
      .(invoices := db.invoices[invoiceId := CompanyInvoice(db, invoiceId, userId, data)])
  }

  /** `create_company_invoice`, with the restock's permission check corrected: a DIRECTOR or
      ADMIN restocks the lines; the company balance is debited by the restock's `to_pay`
      as EXPENSE and linked to the invoice; one balance entry is added; the invoice stores
      the same `to_pay` and the restocked products. With no lines, without a company
      balance, or when the commit finds two products with one name, nothing changes. */
  method CreateCompanyInvoice(s: Session, userId: Id, data: CompanyInvoiceInput) returns (r: Result<Invoice>)
    requires s.Valid()
    modifies s
    ensures s.Valid() && s.nextId >= old(s.nextId)
    ensures r.Err? ==> s.db == old(s.db)
    ensures s.db.balances.Keys == old(s.db.balances.Keys)
    ensures NothingOnSale(old(s.db.products)) ==> NothingOnSale(s.db.products)
    ensures r.Ok? <==> CompanyInvoiceSucceeds(old(s.db), old(s.nextId), userId, data)
    ensures r.Ok? ==>
      && r.value == CompanyInvoice(old(s.db), old(s.nextId), userId, data)
      && s.db == CompanyInvoiceTables(old(s.db), old(s.nextId), userId, data)
    ensures CheckUserPermission(old(s.db.users), userId, InvoiceRoles).Err? ==>
      r == Err(CheckUserPermission(old(s.db.users), userId, InvoiceRoles).error)
    ensures CheckUserPermission(old(s.db.users), userId, InvoiceRoles).Ok? && data.products == [] ==>
      r == Err(UnboundTotal)
    ensures CheckUserPermission(old(s.db.users), userId, InvoiceRoles).Ok? && data.products != [] &&
            CompanyOwner(old(s.db.users[userId].companyId.value)) !in old(s.db.balances) ==>
      r == Err(NoneAttribute)
  {
    var saved := s.db;
    var perm := CheckUserPermission(s.db.users, userId, InvoiceRoles);
    if perm.Err? {
      s.Rollback(saved);
      return Err(perm.error);
    }
    var user := perm.value;
    var cid := user.companyId.value;
    var invoiceId := s.NewId();
    if data.products == [] {
      s.Rollback(saved);
      return Err(UnboundTotal);
    }
    var restock := CreateProducts(s, data.products, user);
    var toPay := restock.value.toPay;
    var owner := CompanyOwner(cid);
    if owner !in s.db.balances {
      s.Rollback(saved);
      return Err(NoneAttribute);
    }
    var h := ChangeBalance(s, toPay, Expense, data.date, owner, Some(invoiceId), None);
    var invoice := Invoice(invoiceId, data.date, None, Some(cid), None, toPay, restock.value.ids);
    s.AddInvoice(invoice);
    s.AddBalanceHistory(h);
    if !NamesUnique(s.db.products) {
      s.Rollback(saved);
      return Err(IntegrityFailure);
    }
    r := Ok(invoice);
  }

  /** Where the money of a company invoice goes: the company balance drops by `to_pay`,
      links the invoice and gains one entry holding its state before; no other balance
      changes; the invoice's `to_pay` is the last line's purchase price times its quantity,
      and it lists one product per line, the i-th being a product of the table afterwards
      with line i's name. */
  lemma CompanyInvoiceMovesMoney(db: Db, invoiceId: Id, userId: Id, data: CompanyInvoiceInput)
    requires CompanyInvoiceSucceeds(db, invoiceId, userId, data)
    ensures var after := CompanyInvoiceTables(db, invoiceId, userId, data);
      var owner := CompanyOwner(db.users[userId].companyId.value);
      var toPay := CompanyInvoice(db, invoiceId, userId, data).toPay;
      && after.balances[owner].balance == db.balances[owner].balance - toPay
      && after.balances[owner].invoiceId == Some(invoiceId)
      && after.balanceHistory == db.balanceHistory + [Entry(db.balances[owner], Change(toPay, Expense, data.date, Some(invoiceId), None))]
      && (forall o :: o in db.balances && o != owner ==> o in after.balances && after.balances[o] == db.balances[o])
      && after.budgets == db.budgets && after.budgetHistory == db.budgetHistory
    ensures var invoice := CompanyInvoice(db, invoiceId, userId, data);
      var last := data.products[|data.products| - 1];
      && invoice.toPay == last.purchasePrice * last.quantity
      && |invoice.products| == |data.products|
      && invoice.companyId == db.users[userId].companyId
    ensures var after := CompanyInvoiceTables(db, invoiceId, userId, data);
      var invoice := CompanyInvoice(db, invoiceId, userId, data);
      forall i :: 0 <= i < |data.products| ==>
        exists p :: p in after.products && p.id == invoice.products[i] && p.name == data.products[i].name
  {
    var st := Restock(db.products, [], [], 0.0, invoiceId + 1);
    RestockTotalIsLastLine(st, data.products, userId, db.users[userId].companyId);
    RestockReturnsLineProducts(st, data.products, userId, db.users[userId].companyId);
  }

  // --------------------------------------------------------- user invoice

  /** The buyer recorded on a user invoice: the given id when it is truthy, else none. */
  function BuyerOf(data: UserInvoiceInput): Option<Id>
  {
    if Truthy(data.buyer) then data.buyer else None
  }

  /** The tables once `change_balance` has moved the owner's balance and its entry is added. */
  function Posted(db: Db, owner: Owner, c: Change): Db
    requires owner in db.balances
  {
    db.(balances := db.balances[owner := Changed(db.balances[owner], c)],
        balanceHistory := db.balanceHistory + [Entry(db.balances[owner], c)])
  }

  /** When a user invoice goes through: a truthy buyer exists and has a balance, the seller
      is a WORKER_USER or WORKER_ADMIN of a company, the lines are given and all sell, and
      the company has a budget. */
  ghost predicate UserInvoiceSucceeds(db: Db, userId: Id, data: UserInvoiceInput)
  {
    && (Truthy(data.buyer) ==> data.buyer.value in db.users && UserOwner(data.buyer.value) in db.balances)
    && CheckUserPermission(db.users, userId, SellerRoles).Ok?
    && data.products.Some?
    && SellRun(Sale(db.products, [], [], 0.0), data.products.value).failure.None?
    && db.users[userId].companyId.value in db.budgets
  }

  /** Why a user invoice fails, checked in the order `create_user_invoice` meets them: a
      truthy buyer that does not exist, the seller's permission, a missing list of lines,
      the first line that does not sell, a buyer without a balance, a company without a
      budget. None when it goes through. */
  ghost function UserInvoiceFailure(db: Db, userId: Id, data: UserInvoiceInput): Option<Error>
  {
    if Truthy(data.buyer) && data.buyer.value !in db.users then Some(RecordNotFound(data.buyer.value))
    else match CheckUserPermission(db.users, userId, SellerRoles)
      case Err(e) => Some(e)
      case Ok(seller) =>
        if data.products.None? then Some(NotIterable)
        else
          var run := SellRun(Sale(db.products, [], [], 0.0), data.products.value);
          if run.failure.Some? then run.failure
          else if Truthy(data.buyer) && UserOwner(data.buyer.value) !in db.balances then Some(NoneAttribute)
          else if seller.companyId.value !in db.budgets then Some(NoneAttribute)
          else None
  }

  /** The failure order and the success condition agree: a user invoice fails for some
      reason exactly when it does not go through. */
  lemma UserInvoiceFailsUnlessItSucceeds(db: Db, userId: Id, data: UserInvoiceInput)
    ensures UserInvoiceFailure(db, userId, data).None? <==> UserInvoiceSucceeds(db, userId, data)
  {
  }

  /** The sale a user invoice makes. */
  ghost function UserSale(db: Db, data: UserInvoiceInput): Sale
    requires data.products.Some?
  {
    SellRun(Sale(db.products, [], [], 0.0), data.products.value).state
  }

  /** The invoice record of a user sale that goes through, filed under `invoiceId`. */
  ghost function UserInvoice(db: Db, invoiceId: Id, userId: Id, data: UserInvoiceInput): Invoice
    requires UserInvoiceSucceeds(db, userId, data)
  {
    var seller := db.users[userId];
    var sale := UserSale(db, data);
    Invoice(invoiceId, data.date, BuyerOf(data), seller.companyId, seller.workerId, sale.toPay, sale.sold)
  }

  /** The tables after a user invoice that goes through: products sold, invoice filed, the
      buyer (if any) debited, and the income finance `invoiceId + 1` entered. */
  ghost function UserInvoiceTables(db: Db, invoiceId: Id, userId: Id, data: UserInvoiceInput): Db
    requires UserInvoiceSucceeds(db, userId, data)
  {
    var cid := db.users[userId].companyId.value;
    var sale := UserSale(db, data);
    var sold := db.(products := sale.rows, invoices := db.invoices[invoiceId := UserInvoice(db, invoiceId, userId, data)]);
    var change := Change(sale.toPay, Expense, data.date, Some(invoiceId), None);
    var debited := if Truthy(data.buyer) then Posted(sold, UserOwner(data.buyer.value), change) else sold;
    Entered(debited, cid, Finance(invoiceId + 1, sale.toPay, data.date, Income, cid))
  }

  /** Where the money of a user sale goes: a named buyer's balance drops by `to_pay` and
      gains one entry, an anonymous sale touches no balance, and no company balance ever
      changes. */
  lemma UserInvoiceMovesMoney(db: Db, invoiceId: Id, userId: Id, data: UserInvoiceInput)
    requires UserInvoiceSucceeds(db, userId, data)
    ensures var after := UserInvoiceTables(db, invoiceId, userId, data);
      var toPay := UserSale(db, data).toPay;
      && (Truthy(data.buyer) ==>
            && after.balances[UserOwner(data.buyer.value)].balance == db.balances[UserOwner(data.buyer.value)].balance - toPay
            && |after.balanceHistory| == |db.balanceHistory| + 1)
      && (!Truthy(data.buyer) ==> after.balances == db.balances && after.balanceHistory == db.balanceHistory)
      && (forall c :: CompanyOwner(c) in db.balances ==> CompanyOwner(c) in after.balances && after.balances[CompanyOwner(c)] == db.balances[CompanyOwner(c)])
      && (forall o :: o in db.balances && (Truthy(data.buyer) ==> o != UserOwner(data.buyer.value)) ==>
            o in after.balances && after.balances[o] == db.balances[o])
      && after.balances.Keys == db.balances.Keys
  {
    var cid := db.users[userId].companyId.value;
    var sale := UserSale(db, data);
    var sold := db.(products := sale.rows, invoices := db.invoices[invoiceId := UserInvoice(db, invoiceId, userId, data)]);
    var change := Change(sale.toPay, Expense, data.date, Some(invoiceId), None);
    var debited := if Truthy(data.buyer) then Posted(sold, UserOwner(data.buyer.value), change) else sold;
    var after := UserInvoiceTables(db, invoiceId, userId, data);
    assert after.balances == debited.balances && after.balanceHistory == debited.balanceHistory;
  }

  /** While only companies have balances, a user sale that names a buyer never goes
      through: the buyer's balance it would debit does not exist. */
  lemma NamedBuyerNeverSucceeds(db: Db, userId: Id, data: UserInvoiceInput)
    requires OnlyCompanyBalances(db.balances) && Truthy(data.buyer)
    ensures !UserInvoiceSucceeds(db, userId, data)
  {
  }

  /** While nothing is on sale, a user invoice with any line never goes through. */
  lemma NoUserSaleWhileNothingOnSale(db: Db, userId: Id, data: UserInvoiceInput)
    requires NothingOnSale(db.products) && data.products.Some? && data.products.value != []
    ensures !UserInvoiceSucceeds(db, userId, data)
  {
    NoSaleWhileNothingOnSale(Sale(db.products, [], [], 0.0), data.products.value);
  }

  /** A user sale enters its `to_pay` in the company budget as income, with one budget
      entry, and leaves the budget's expense as it was. */
  lemma UserInvoiceEntersIncome(db: Db, invoiceId: Id, userId: Id, data: UserInvoiceInput)
    requires UserInvoiceSucceeds(db, userId, data)
    ensures var after := UserInvoiceTables(db, invoiceId, userId, data);
      var cid := db.users[userId].companyId.value;
      var toPay := UserSale(db, data).toPay;
      && after.budgets[cid].income == db.budgets[cid].income + toPay
      && after.budgets[cid].expense == db.budgets[cid].expense
      && |after.budgetHistory| == |db.budgetHistory| + 1
  {
    var cid := db.users[userId].companyId.value;
    var sale := UserSale(db, data);
    var sold := db.(products := sale.rows, invoices := db.invoices[invoiceId := UserInvoice(db, invoiceId, userId, data)]);
    var change := Change(sale.toPay, Expense, data.date, Some(invoiceId), None);
    var debited := if Truthy(data.buyer) then Posted(sold, UserOwner(data.buyer.value), change) else sold;
    assert debited.budgets == db.budgets && debited.budgetHistory == db.budgetHistory;
    ChangeBudgetEffect(db.budgets[cid], Finance(invoiceId + 1, sale.toPay, data.date, Income, cid));
  }

  /** The invoice of a user sale carries the seller's company and branch and the sale's
      `to_pay`: the last line's sale price times its amount, or 0 with no lines. */
  lemma UserInvoiceRecordsSale(db: Db, invoiceId: Id, userId: Id, data: UserInvoiceInput)
    requires UserInvoiceSucceeds(db, userId, data)
    ensures var invoice := UserInvoice(db, invoiceId, userId, data);
      var items := data.products.value;
      && invoice.companyId == db.users[userId].companyId && invoice.workerId == db.users[userId].workerId
      && (items != [] ==> invoice.toPay == PriceOf(db.products, items[|items| - 1].productId) * items[|items| - 1].quantity)
      && (items == [] ==> invoice.toPay == 0.0)
  {
    SaleTotalIsLastLine(Sale(db.products, [], [], 0.0), data.products.value);
  }

  /** `create_user_invoice`: a seller sells the lines; the invoice takes the sale's `to_pay`,
      the seller's company and branch, and the buyer if one is named; a named buyer's
      balance is debited by `to_pay` as EXPENSE; an INCOME finance of `to_pay` is entered
      in the company budget. A missing buyer, a failing sale, a buyer without a balance,
      or a company without a budget: nothing changes. */
  method CreateUserInvoice(s: Session, userId: Id, data: UserInvoiceInput) returns (r: Result<Invoice>)
    requires s.Valid()
    modifies s
    ensures s.Valid() && s.nextId >= old(s.nextId)
    ensures r.Err? ==> s.db == old(s.db)
    ensures r.Ok? <==> UserInvoiceSucceeds(old(s.db), userId, data)
    ensures r.Ok? ==>
      && r.value == UserInvoice(old(s.db), old(s.nextId), userId, data)
      && s.db == UserInvoiceTables(old(s.db), old(s.nextId), userId, data)
    ensures s.db.balances.Keys == old(s.db.balances.Keys)
    ensures r.Err? ==> UserInvoiceFailure(old(s.db), userId, data) == Some(r.error)
    ensures NothingOnSale(old(s.db.products)) ==> s.db.products == old(s.db.products)
  {
    var saved := s.db;
    if Truthy(data.buyer) {
      var buyer := GetInDb(s.db.users, data.buyer.value);
      if buyer.Err? {
        s.Rollback(saved);
        return Err(buyer.error);
      }
    }
    var sale := SellProducts(s, userId, data.products);
    if sale.Err? {
      assert UserInvoiceFailure(saved, userId, data) == Some(sale.error);
      s.Rollback(saved);
      return Err(sale.error);
    }
    var seller := CheckUserPermission(s.db.users, userId, SellerRoles).value;
    var cid := seller.companyId.value;
    var toPay := sale.value.toPay;
    var invoiceId := s.NewId();
    var invoice := Invoice(invoiceId, data.date, BuyerOf(data), Some(cid), seller.workerId, toPay, sale.value.sold);
    s.AddInvoice(invoice);
    if Truthy(data.buyer) {
      var owner := UserOwner(data.buyer.value);
      if owner !in s.db.balances {
        assert UserInvoiceFailure(saved, userId, data) == Some(NoneAttribute);
        s.Rollback(saved);
        return Err(NoneAttribute);
      }
      var h := ChangeBalance(s, toPay, Expense, data.date, owner, Some(invoiceId), None);
      s.AddBalanceHistory(h);
    }
    var finance := CreateFinance(s, FinanceInput(data.date, Income, toPay), cid);
    if finance.Err? {
      assert UserInvoiceFailure(saved, userId, data) == Some(NoneAttribute);
      s.Rollback(saved);
      return Err(finance.error);
    }
    r := Ok(invoice);
  }
}
