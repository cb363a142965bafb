/**
 * Records of the business backend, with the field sets that the services
 * read and write (balances with a date and invoice/finance links, budgets
 * with a date and finance link, products with a sale quantity), the roles
 * the services grant, and the errors the services raise.
 *
 * Money (`Numeric(20,3)`) and quantities (`Float`) are `real`; rounding is
 * not modelled. Instants are opaque integers.
 */
module Models {

  type Id = int
  type Time = int

  datatype Option<T> = None | Some(value: T)

  datatype Role = Director | Admin | WorkerDirector | WorkerAdmin | WorkerUser | Customer

  datatype TransactionType = Income | Expense

  datatype BalanceType = UserBalance | CompanyBalance

  datatype UnitOfMeasure = Kilogram | Pieces

  datatype User = User(id: Id, companyId: Option<Id>, workerId: Option<Id>, role: Role)

  datatype Company = Company(id: Id, name: string)

  /** A branch of a company. */
  datatype Worker = Worker(id: Id, name: string, companyId: Option<Id>)

  /** Who a balance belongs to: its `user_id` or its `company_id`. */
  datatype Owner = UserOwner(userId: Id) | CompanyOwner(companyId: Id)

  datatype Balance = Balance(
    id: Id,
    balance: real,
    date: Option<Time>,
    userId: Option<Id>,
    companyId: Option<Id>,
    invoiceId: Option<Id>,
    financeId: Option<Id>)

  datatype BalanceHistory = BalanceHistory(
    prevBalance: real,
    date: Option<Time>,
    amount: real,
    transactionType: TransactionType,
    invoiceId: Option<Id>,
    financeId: Option<Id>,
    balanceId: Id)

  datatype Budget = Budget(
    id: Id,
    income: real,
    expense: real,
    profit: real,
    date: Time,
    companyId: Id,
    financeId: Option<Id>)

  datatype BudgetHistory = BudgetHistory(
    income: real,
    expense: real,
    profit: real,
    date: Time,
    amount: real,
    transactionType: TransactionType,
    financeId: Option<Id>,
    budgetId: Id)

  datatype Finance = Finance(id: Id, amount: real, date: Time, transactionType: TransactionType, companyId: Id)

  /** The body of a finance request: date, transaction type and amount. */
  datatype FinanceInput = FinanceInput(date: Time, transactionType: TransactionType, amount: real)

  datatype Product = Product(
    id: Id,
    name: string,
    purchasePrice: real,
    salePrice: real,
    quantity: real,
    saleQuantity: real,
    unitOfMeasure: UnitOfMeasure,
    date: Time,
    userId: Option<Id>,
    companyId: Option<Id>)

  datatype Invoice = Invoice(
    id: Id,
    date: Time,
    userId: Option<Id>,
    companyId: Option<Id>,
    workerId: Option<Id>,
    toPay: real,
    products: seq<Id>)

  /**
   * What the services raise: the HTTP errors they construct, and the Python
   * exceptions that the code as written runs into.
   */
  datatype Error =
    | RecordNotFound(ident: Id)
    | NotInCompany
    | Forbidden
    | AlreadyInCompany
    | NoBalanceYet
    | NotInStock(productName: string)
    | NotEnoughStock(stockName: string, available: real, requested: real)
    | NoBranchGiven
    | NameTaken
    | UserRemoved
    | NumberOutOfRange
    | InvoiceNotFound(invoiceId: Id)
    | DeleteRefused
    | UnboundTotal        // UnboundLocalError: `to_pay` read before assignment
    | NoneAttribute       // AttributeError: a relationship that is None is dereferenced
    | NotIterable         // TypeError: a loop over None
    | UnexpectedKeyword   // TypeError: a call with a keyword the callee does not declare
    | IntegrityFailure    // an IntegrityError raised by a commit that nothing catches

  /** The HTTP status of an error the services construct; None for an uncaught exception
      or for the refusal of the deletion check, whose status is not known here. */
  function Status(e: Error): Option<int>
  {
    match e
    case Forbidden => Some(403)
    case UserRemoved => Some(401)
    case UnboundTotal | NoneAttribute | NotIterable | UnexpectedKeyword | IntegrityFailure | DeleteRefused => None
    case _ => Some(400)
  }

  datatype Result<T> = Ok(value: T) | Err(error: Error)

  /** Python truthiness of an optional integer id: None and 0 are both false. */
  predicate Truthy(x: Option<Id>)
  {
    x.Some? && x.value != 0
  }

  /** The tables of the database, as one value. */
  datatype Db = Db(
    users: map<Id, User>,
    companies: map<Id, Company>,
    workers: map<Id, Worker>,
    balances: map<Owner, Balance>,
    balanceHistory: seq<BalanceHistory>,
    budgets: map<Id, Budget>,
    budgetHistory: seq<BudgetHistory>,
    finances: map<Id, Finance>,
    products: seq<Product>,
    invoices: map<Id, Invoice>)

  /** Every id that the sequence handed out so far is below `n`. */
  ghost predicate IdsBelow(db: Db, n: Id)
  {
    && (forall k :: k in db.companies ==> k < n)
    && (forall k :: k in db.workers ==> k < n)
    && (forall k :: k in db.finances ==> k < n)
    && (forall k :: k in db.invoices ==> k < n)
    && (forall i :: 0 <= i < |db.products| ==> db.products[i].id < n)
  }

  /** The primary key of the products table: no two rows share an id. */
  ghost predicate UniqueIds(rows: seq<Product>)
  {
    forall i, j :: 0 <= i < j < |rows| ==> rows[i].id != rows[j].id
  }

  /** The state every transaction starts from and ends in: ids below the sequence, every
      user filed under its own id, and no two products with one id. */
  ghost predicate Consistent(db: Db, n: Id)
  {
    && IdsBelow(db, n)
    && (forall k :: k in db.users ==> db.users[k].id == k)
    && UniqueIds(db.products)
  }

  /** Some key of a non-empty set of ids, for loops that visit each row once. */
  method PickId(ids: set<Id>) returns (k: Id)
    requires ids != {}
    ensures k in ids
  {
    if forall x :: x !in ids {
      assert false;
    }
    k :| k in ids;
  }
}
