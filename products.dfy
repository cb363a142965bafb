/**
 * Stock: restocking products from a purchase (matched to existing rows by
 * name), selling them (two stock checks, then both quantities drop), the
 * in-stock listing of a company, and the sale-price update.
 */
module ProductService {
  import opened Models
  import opened Utils
  import opened Store

  /** The roles that may read products when the caller passes none. */
  const ProductRoles: seq<Role> := [Director, Admin, WorkerDirector, WorkerAdmin, WorkerUser]

  const RestockRoles := Roles([Director, Admin])

  const SellerRoles := Roles([WorkerUser, WorkerAdmin])

  /** One line of a purchase: the product fields the buyer supplies. */
  datatype NewProduct = NewProduct(name: string, purchasePrice: real, salePrice: real, quantity: real,
                                   unitOfMeasure: UnitOfMeasure, date: Time)

  /** One line of a sale: which product and how much of it. */
  datatype SellRequest = SellRequest(productId: Id, quantity: real)

  /** The row a primary-key lookup of `id` returns: the first one with that id. */
  function FindById(rows: seq<Product>, id: Id): (r: Option<nat>)
    ensures r.Some? ==> r.value < |rows| && rows[r.value].id == id
    ensures r.Some? ==> forall j :: 0 <= j < r.value ==> rows[j].id != id
    ensures r.None? ==> forall j :: 0 <= j < |rows| ==> rows[j].id != id
    decreases |rows|
  {
    if rows == [] then None
    else if rows[0].id == id then Some(0)
    else match FindById(rows[1..], id)
      case None => None
      case Some(k) => Some(k + 1)
  }

  /** The row `filter_by(name=...).first()` returns. */
  function FindByName(rows: seq<Product>, name: string): (r: Option<nat>)
    ensures r.Some? ==> r.value < |rows| && rows[r.value].name == name
    ensures r.Some? ==> forall j :: 0 <= j < r.value ==> rows[j].name != name
    ensures r.None? ==> forall j :: 0 <= j < |rows| ==> rows[j].name != name
    decreases |rows|
  {
    if rows == [] then None
    else if rows[0].name == name then Some(0)
    else match FindByName(rows[1..], name)
      case None => None
      case Some(k) => Some(k + 1)
  }

  /** Rewriting one row without changing its id changes no lookup by id. */
  lemma {:induction false} FindByIdKeepsUnderUpdate(rows: seq<Product>, k: nat, p: Product, id: Id)
    requires k < |rows| && p.id == rows[k].id
    ensures FindById(rows[k := p], id) == FindById(rows, id)
    decreases |rows|
  {
    if k == 0 {
      assert rows[k := p][1..] == rows[1..];
    } else {
      assert rows[k := p][1..] == rows[1..][k - 1 := p];
      FindByIdKeepsUnderUpdate(rows[1..], k - 1, p, id);
    }
  }

  /** Rewriting one row without changing its name changes no lookup by name. */
  lemma {:induction false} FindByNameKeepsUnderUpdate(rows: seq<Product>, k: nat, p: Product, name: string)
    requires k < |rows| && p.name == rows[k].name
    ensures FindByName(rows[k := p], name) == FindByName(rows, name)
    decreases |rows|
  {
    if k == 0 {
      assert rows[k := p][1..] == rows[1..];
    } else {
      assert rows[k := p][1..] == rows[1..][k - 1 := p];
      FindByNameKeepsUnderUpdate(rows[1..], k - 1, p, name);
    }
  }

  /** Rewriting a row without changing its id keeps the primary key. */
  lemma UpdateKeepsUniqueIds(rows: seq<Product>, k: nat, p: Product)
    requires UniqueIds(rows) && k < |rows| && p.id == rows[k].id
    ensures UniqueIds(rows[k := p])
  {
    assert forall j :: 0 <= j < |rows| ==> rows[k := p][j].id == rows[j].id;
  }

  /** Appending a row whose id is above every other keeps the primary key. */
  lemma AppendFreshKeepsUniqueIds(rows: seq<Product>, p: Product)
    requires UniqueIds(rows) && forall j :: 0 <= j < |rows| ==> rows[j].id < p.id
    ensures UniqueIds(rows + [p])
  {
    assert forall j :: 0 <= j < |rows| ==> (rows + [p])[j] == rows[j];
  }

  /** The stock invariant: 0 <= sale_quantity <= quantity on every row. */
  ghost predicate StockBounded(rows: seq<Product>)
  {
    forall j :: 0 <= j < |rows| ==> 0.0 <= rows[j].saleQuantity <= rows[j].quantity
  }

  // ---------------------------------------------------------------- sale

  /** A sale in progress: the product rows, the products sold and the invoice lines so
      far, and `to_pay`. */
  datatype Sale = Sale(rows: seq<Product>, sold: seq<Id>, lines: seq<Product>, toPay: real)

  /** Where a sale stops: its state, and the error that stopped it, if any. */
  datatype SaleRun = SaleRun(state: Sale, failure: Option<Error>)

  /** One pass of the loop of `sell_products`: the product must exist, must have some sale
      quantity, and must have at least the requested amount; then quantity and sale quantity
      both drop by exactly that amount and nothing else on any row changes; the line carries
      the sold amount, and `to_pay` becomes this line's price only. */
  function SellStep(st: Sale, item: SellRequest): (r: Result<Sale>)
    ensures FindById(st.rows, item.productId).None? ==> r == Err(RecordNotFound(item.productId))
    ensures FindById(st.rows, item.productId).Some? ==>
      var p := st.rows[FindById(st.rows, item.productId).value];
      && (r.Ok? <==> p.saleQuantity != 0.0 && item.quantity <= p.saleQuantity)
      && (p.saleQuantity == 0.0 ==> r == Err(NotInStock(p.name)))
      && (p.saleQuantity != 0.0 && p.saleQuantity < item.quantity ==> r == Err(NotEnoughStock(p.name, p.saleQuantity, item.quantity)))
    ensures r.Ok? ==> |r.value.rows| == |st.rows|
    ensures r.Ok? ==>
      var k := FindById(st.rows, item.productId).value;
      var p, q := st.rows[k], r.value.rows[k];
      && r.value.rows == st.rows[k := q]
      && q.quantity == p.quantity - item.quantity && q.saleQuantity == p.saleQuantity - item.quantity
      && q == p.(quantity := q.quantity, saleQuantity := q.saleQuantity)
      && r.value.sold == st.sold + [item.productId]
      && r.value.lines == st.lines + [q.(quantity := item.quantity)]
      && r.value.toPay == p.salePrice * item.quantity
  {
    match FindById(st.rows, item.productId)
    case None => Err(RecordNotFound(item.productId))
    case Some(k) =>
      var p := st.rows[k];
      if p.saleQuantity == 0.0 then Err(NotInStock(p.name))
      else if p.saleQuantity < item.quantity then Err(NotEnoughStock(p.name, p.saleQuantity, item.quantity))
      else
        var q := p.(quantity := p.quantity - item.quantity, saleQuantity := p.saleQuantity - item.quantity);
        Ok(Sale(st.rows[k := q], st.sold + [p.id], st.lines + [q.(quantity := item.quantity)], p.salePrice * item.quantity))
  }

  /** The whole loop of `sell_products`: stops at the first failing line, with the rows
      changed by the lines before it. */
  function SellRun(st: Sale, items: seq<SellRequest>): SaleRun
    decreases |items|
  {
    if items == [] then SaleRun(st, None)
    else match SellStep(st, items[0])
      case Err(e) => SaleRun(st, Some(e))
      case Ok(next) => SellRun(next, items[1..])
  }

  /** The sale price of the product with the given id, 0 when there is none. */
  function PriceOf(rows: seq<Product>, id: Id): real
  {
    match FindById(rows, id)
    case None => 0.0
    case Some(k) => rows[k].salePrice
  }

  /** The total amount requested of one product over a list of sale lines. */
  function Requested(items: seq<SellRequest>, id: Id): real
    decreases |items|
  {
    if items == [] then 0.0 else (if items[0].productId == id then items[0].quantity else 0.0) + Requested(items[1..], id)
  }

  /** For requests that are not negative, a sale keeps 0 <= sale_quantity <= quantity on
      every row, whether it succeeds or stops part-way. */
  lemma {:induction false} SaleKeepsStockBounded(st: Sale, items: seq<SellRequest>)
    requires StockBounded(st.rows)
    requires forall i :: 0 <= i < |items| ==> items[i].quantity >= 0.0
    ensures StockBounded(SellRun(st, items).state.rows)
    decreases |items|
  {
    if items != [] {
      match SellStep(st, items[0])
      case Err(_) =>
      case Ok(next) =>
        var k := FindById(st.rows, items[0].productId).value;
        assert forall j :: 0 <= j < |next.rows| && j != k ==> next.rows[j] == st.rows[j];
        SaleKeepsStockBounded(next, items[1..]);
    }
  }

  /** A sale that succeeds takes from every row exactly the total requested of its product,
      from both quantity and sale quantity, and changes nothing else on any row. */
  lemma {:induction false} SaleTakesRequestedAmounts(st: Sale, items: seq<SellRequest>)
    requires UniqueIds(st.rows)
    requires SellRun(st, items).failure.None?
    ensures var after := SellRun(st, items).state.rows;
      |after| == |st.rows| &&
      forall j :: 0 <= j < |st.rows| ==>
        after[j] == st.rows[j].(quantity := st.rows[j].quantity - Requested(items, st.rows[j].id),
                                saleQuantity := st.rows[j].saleQuantity - Requested(items, st.rows[j].id))
    decreases |items|
  {
    if items != [] {
      var next := SellStep(st, items[0]).value;
      var k := FindById(st.rows, items[0].productId).value;
      assert forall j :: 0 <= j < |st.rows| ==> next.rows[j].id == st.rows[j].id;
      SaleTakesRequestedAmounts(next, items[1..]);
      var after := SellRun(st, items).state.rows;
      forall j | 0 <= j < |st.rows|
        ensures after[j] == st.rows[j].(quantity := st.rows[j].quantity - Requested(items, st.rows[j].id),
                                        saleQuantity := st.rows[j].saleQuantity - Requested(items, st.rows[j].id))
      {
        assert (items[0].productId == st.rows[j].id) == (j == k);
      }
    }
  }

  /** A sale that succeeds has one sold product and one invoice line per request, in
      request order, each line carrying the product's id and the sold amount rather than
      the stock left. */
  lemma {:induction false} SaleLinesFollowRequests(st: Sale, items: seq<SellRequest>)
    requires SellRun(st, items).failure.None?
    ensures var fin := SellRun(st, items).state;
      && |fin.sold| == |st.sold| + |items| && fin.sold[..|st.sold|] == st.sold
      && |fin.lines| == |st.lines| + |items| && fin.lines[..|st.lines|] == st.lines
      && (forall i :: 0 <= i < |items| ==> fin.sold[|st.sold| + i] == items[i].productId)
      && (forall i :: 0 <= i < |items| ==>
            fin.lines[|st.lines| + i].id == items[i].productId && fin.lines[|st.lines| + i].quantity == items[i].quantity)
    decreases |items|
  {
    if items != [] {
      var next := SellStep(st, items[0]).value;
      SaleLinesFollowRequests(next, items[1..]);
      var fin := SellRun(st, items).state;
      assert fin == SellRun(next, items[1..]).state;
      assert fin.sold[..|next.sold|] == next.sold;
      assert fin.lines[..|next.lines|] == next.lines;
      assert fin.sold[..|st.sold|] == next.sold[..|st.sold|];
      assert fin.lines[..|st.lines|] == next.lines[..|st.lines|];
      forall i | 0 <= i < |items|
        ensures fin.sold[|st.sold| + i] == items[i].productId
        ensures fin.lines[|st.lines| + i].id == items[i].productId && fin.lines[|st.lines| + i].quantity == items[i].quantity
      {
        if i == 0 {
          assert fin.sold[|st.sold|] == next.sold[|st.sold|];
          assert fin.lines[|st.lines|] == next.lines[|st.lines|];
        } else {
          assert items[i] == items[1..][i - 1];
        }
      }
    }
  }

  /** `to_pay` of a sale that succeeds is the last line's sale price times its amount,
      not a sum; with no lines it stays where it started (0 in `sell_products`). */
  lemma {:induction false} SaleTotalIsLastLine(st: Sale, items: seq<SellRequest>)
    requires SellRun(st, items).failure.None?
    ensures items == [] ==> SellRun(st, items).state.toPay == st.toPay
    ensures items != [] ==>
      SellRun(st, items).state.toPay == PriceOf(st.rows, items[|items| - 1].productId) * items[|items| - 1].quantity
    decreases |items|
  {
    if items != [] {
      var next := SellStep(st, items[0]).value;
      var k := FindById(st.rows, items[0].productId).value;
      SaleTotalIsLastLine(next, items[1..]);
      if |items| > 1 {
        var last := items[|items| - 1].productId;
        assert items[1..][|items[1..]| - 1] == items[|items| - 1];
        FindByIdKeepsUnderUpdate(st.rows, k, next.rows[k], last);
      }
    }
  }

  /** A sale line for a product whose sale quantity is 0 always fails. */
  lemma SaleNeedsSaleQuantity(st: Sale, items: seq<SellRequest>)
    requires items != [] && FindById(st.rows, items[0].productId).Some?
    requires st.rows[FindById(st.rows, items[0].productId).value].saleQuantity == 0.0
    ensures SellRun(st, items).failure == Some(NotInStock(st.rows[FindById(st.rows, items[0].productId).value].name))
    ensures SellRun(st, items).state == st
  {
  }

  /** No product is on sale: every row has sale quantity 0. Nothing in these services
      ever raises a sale quantity from 0, so this holds from an empty table on. */
  ghost predicate NothingOnSale(rows: seq<Product>)
  {
    forall j :: 0 <= j < |rows| ==> rows[j].saleQuantity == 0.0
  }

  /** While nothing is on sale, a sale with any line fails and changes no row. */
  lemma NoSaleWhileNothingOnSale(st: Sale, items: seq<SellRequest>)
    requires NothingOnSale(st.rows)
    ensures SellRun(st, items).state.rows == st.rows
    ensures items != [] ==> SellRun(st, items).failure.Some?
  {
    if items != [] {
      match FindById(st.rows, items[0].productId)
      case None =>
      case Some(k) =>
        assert st.rows[k].saleQuantity == 0.0;
    }
  }

  /** `sell_products`: a WORKER_USER or WORKER_ADMIN sells the requested lines. A missing
      list fails at the loop, after the permission check. A line that fails leaves the
      rows changed by the lines before it, for the caller's rollback to undo. */
  method SellProducts(s: Session, userId: Id, data: Option<seq<SellRequest>>) returns (r: Result<Sale>)
    requires s.Valid()
    modifies s
    ensures s.Valid() && s.nextId == old(s.nextId)
    ensures CheckUserPermission(old(s.db.users), userId, SellerRoles).Err? ==>
      r == Err(CheckUserPermission(old(s.db.users), userId, SellerRoles).error) && s.db == old(s.db)
    ensures CheckUserPermission(old(s.db.users), userId, SellerRoles).Ok? && data.None? ==>
      r == Err(NotIterable) && s.db == old(s.db)
    ensures CheckUserPermission(old(s.db.users), userId, SellerRoles).Ok? && data.Some? ==>
      var run := SellRun(Sale(old(s.db.products), [], [], 0.0), data.value);
      && s.db == old(s.db).(products := run.state.rows)
      && r == if run.failure.None? then Ok(run.state) else Err(run.failure.value)
    ensures r.Ok? ==>
      && |s.db.products| == |old(s.db.products)|
      && forall j :: 0 <= j < |old(s.db.products)| ==>
           var p, taken := old(s.db.products[j]), Requested(data.value, old(s.db.products[j].id));
           s.db.products[j] == p.(quantity := p.quantity - taken, saleQuantity := p.saleQuantity - taken)
    ensures NothingOnSale(old(s.db.products)) ==>
      s.db.products == old(s.db.products) && (data.Some? && data.value != [] ==> r.Err?)
  {
    var perm := CheckUserPermission(s.db.users, userId, SellerRoles);
    if perm.Err? {
      return Err(perm.error);
    }
    if data.None? {
      return Err(NotIterable);
    }
    var items := data.value;
    var sale := Sale(s.db.products, [], [], 0.0);
    ghost var start := sale;
    var i := 0;
    while i < |items|
      invariant 0 <= i <= |items|
      invariant s.Valid() && s.nextId == old(s.nextId)
      invariant s.db == old(s.db).(products := s.db.products) && sale.rows == s.db.products
      invariant SellRun(start, items) == SellRun(sale, items[i..])
    {
      assert items[i..][0] == items[i] && items[i..][1..] == items[i + 1..];
      var step := SellLine(s, items[i], sale.sold, sale.lines, sale.toPay);
      if step.Err? {
        if NothingOnSale(start.rows) {
          NoSaleWhileNothingOnSale(start, items);
        }
        return Err(step.error);
      }
      sale := step.value;
      i := i + 1;
    }
    SaleTakesRequestedAmounts(start, items);
    if NothingOnSale(start.rows) {
      NoSaleWhileNothingOnSale(start, items);
    }
    r := Ok(sale);
  }

  /** One pass of the loop of `sell_products`, on the session: the two stock checks, then
      the product row is decremented in place. */
  method SellLine(s: Session, item: SellRequest, sold: seq<Id>, lines: seq<Product>, toPay: real) returns (r: Result<Sale>)
    requires s.Valid()
    modifies s
    ensures s.Valid() && s.nextId == old(s.nextId)
    ensures r == SellStep(Sale(old(s.db.products), sold, lines, toPay), item)
    ensures s.db == old(s.db).(products := if r.Ok? then r.value.rows else old(s.db.products))
  {
    ghost var st := Sale(s.db.products, sold, lines, toPay);
    var found := FindById(s.db.products, item.productId);
    if found.None? {
      return Err(RecordNotFound(item.productId));
    }
    var k := found.value;
    var product := s.db.products[k];
    if product.saleQuantity == 0.0 {
      return Err(NotInStock(product.name));
    }
    if product.saleQuantity < item.quantity {
      return Err(NotEnoughStock(product.name, product.saleQuantity, item.quantity));
    }
    product := product.(quantity := product.quantity - item.quantity);
    product := product.(saleQuantity := product.saleQuantity - item.quantity);
    s.db := s.db.(products := s.db.products[k := product]);
    r := Ok(Sale(s.db.products, sold + [product.id], lines + [product.(quantity := item.quantity)],
                 product.salePrice * item.quantity));
    assert SellStep(st, item).Ok?;
    assert SellStep(st, item).value == r.value;
  }

  // ------------------------------------------------------------- restock

  /** A restock in progress: the existing rows (overwritten in place), the new rows not
      yet in the table, the returned products in order, `to_pay`, and the next id. */
  datatype Restock = Restock(rows: seq<Product>, created: seq<Product>, ids: seq<Id>, toPay: real, next: Id)

  /** An existing product takes every field of the line (`setattr` over the line's fields);
      its id, sale quantity and owners stay. */
  function Overwrite(p: Product, item: NewProduct): Product
  {
    p.(name := item.name, purchasePrice := item.purchasePrice, salePrice := item.salePrice,
       quantity := item.quantity, unitOfMeasure := item.unitOfMeasure, date := item.date)
  }

  /** A new product: the line's fields, sale quantity 0, and the caller as owner. */
  function Created(item: NewProduct, id: Id, userId: Id, companyId: Option<Id>): Product
  {
    Product(id, item.name, item.purchasePrice, item.salePrice, item.quantity, 0.0, item.unitOfMeasure, item.date,
            Some(userId), companyId)
  }

  /** One pass of the loop of `create_products`. The name is looked up among the rows of
      the table only: a product created earlier in the same call is not found again. */
  function RestockStep(st: Restock, item: NewProduct, userId: Id, companyId: Option<Id>): Restock
  {
    match FindByName(st.rows, item.name)
    case Some(k) =>
      var p := Overwrite(st.rows[k], item);
      st.(rows := st.rows[k := p], ids := st.ids + [p.id], toPay := p.purchasePrice * p.quantity)
    case None =>
      var p := Created(item, st.next, userId, companyId);
      st.(created := st.created + [p], ids := st.ids + [p.id], toPay := p.purchasePrice * p.quantity, next := st.next + 1)
  }

  function RestockRun(st: Restock, items: seq<NewProduct>, userId: Id, companyId: Option<Id>): Restock
    decreases |items|
  {
    if items == [] then st else RestockRun(RestockStep(st, items[0], userId, companyId), items[1..], userId, companyId)
  }

  /** One restock line: a product found by name has its fields replaced by the line's,
      quantity included (overwritten, not added to), and keeps its id, sale quantity and
      owners; otherwise a new product with sale quantity 0 and the caller's user and
      company takes the next id. */
  lemma RestockStepEffect(st: Restock, item: NewProduct, userId: Id, companyId: Option<Id>)
    ensures var r := RestockStep(st, item, userId, companyId);
      FindByName(st.rows, item.name).Some? ==>
        var k := FindByName(st.rows, item.name).value;
        && r.rows == st.rows[k := r.rows[k]] && r.created == st.created && r.next == st.next
        && r.rows[k].quantity == item.quantity && r.rows[k].purchasePrice == item.purchasePrice
        && r.rows[k].salePrice == item.salePrice && r.rows[k].date == item.date
        && r.rows[k].id == st.rows[k].id && r.rows[k].saleQuantity == st.rows[k].saleQuantity
        && r.rows[k].userId == st.rows[k].userId && r.rows[k].companyId == st.rows[k].companyId
        && r.ids == st.ids + [st.rows[k].id]
    ensures var r := RestockStep(st, item, userId, companyId);
      FindByName(st.rows, item.name).None? ==>
        && r.rows == st.rows && r.next == st.next + 1 && |r.created| == |st.created| + 1
        && r.created[..|st.created|] == st.created
        && var p := r.created[|st.created|];
        && p.id == st.next && p.name == item.name && p.quantity == item.quantity && p.saleQuantity == 0.0
        && p.userId == Some(userId) && p.companyId == companyId
        && r.ids == st.ids + [st.next]
  {
    var r := RestockStep(st, item, userId, companyId);
    if FindByName(st.rows, item.name).None? {
      assert r.created[..|st.created|] == st.created;
    }
  }

  /** Restock returns one product per line, in order, and `to_pay` is the last line's
      purchase price times its quantity (not a sum); with no lines it stays where it
      started (0 in `create_products`). */
  lemma {:induction false} RestockTotalIsLastLine(st: Restock, items: seq<NewProduct>, userId: Id, companyId: Option<Id>)
    ensures var r := RestockRun(st, items, userId, companyId);
      |r.ids| == |st.ids| + |items| && r.ids[..|st.ids|] == st.ids && |r.rows| == |st.rows|
    ensures items == [] ==> RestockRun(st, items, userId, companyId).toPay == st.toPay
    ensures items != [] ==>
      RestockRun(st, items, userId, companyId).toPay == items[|items| - 1].purchasePrice * items[|items| - 1].quantity
    decreases |items|
  {
    if items != [] {
      var next := RestockStep(st, items[0], userId, companyId);
      RestockTotalIsLastLine(next, items[1..], userId, companyId);
      var r := RestockRun(st, items, userId, companyId);
      assert r.ids[..|next.ids|] == next.ids;
      assert r.ids[..|st.ids|] == next.ids[..|st.ids|];
      if |items| > 1 {
        assert items[1..][|items[1..]| - 1] == items[|items| - 1];
      }
    }
  }

  /** Restock never raises a sale quantity: existing rows keep theirs, over the whole call,
      with their ids, names and owners; each new row starts at 0, belongs to the caller,
      and the new rows take consecutive ids from the next id. */
  lemma {:induction false} RestockNeverRaisesSaleQuantity(st: Restock, items: seq<NewProduct>, userId: Id, companyId: Option<Id>)
    ensures var r := RestockRun(st, items, userId, companyId);
      && |r.rows| == |st.rows|
      && (forall j :: 0 <= j < |st.rows| ==>
            && r.rows[j].saleQuantity == st.rows[j].saleQuantity && r.rows[j].id == st.rows[j].id
            && r.rows[j].name == st.rows[j].name
            && r.rows[j].userId == st.rows[j].userId && r.rows[j].companyId == st.rows[j].companyId)
      && |r.created| >= |st.created| && r.created[..|st.created|] == st.created
      && r.next == st.next + (|r.created| - |st.created|)
      && (forall i :: |st.created| <= i < |r.created| ==>
            && r.created[i].saleQuantity == 0.0 && r.created[i].id == st.next + (i - |st.created|)
            && r.created[i].userId == Some(userId) && r.created[i].companyId == companyId)
    decreases |items|
  {
    if items != [] {
      var next := RestockStep(st, items[0], userId, companyId);
      RestockStepEffect(st, items[0], userId, companyId);
      RestockNeverRaisesSaleQuantity(next, items[1..], userId, companyId);
      var r := RestockRun(st, items, userId, companyId);
      assert r.created[..|next.created|] == next.created;
      assert r.created[..|st.created|] == next.created[..|st.created|];
    }
  }

  /** The product the first line of a restock returns is in the table afterwards, under
      the returned id and with the line's name. */
  lemma FirstLineProductKept(st: Restock, items: seq<NewProduct>, userId: Id, companyId: Option<Id>)
    requires items != []
    ensures var r := RestockRun(st, items, userId, companyId);
      |st.ids| < |r.ids| &&
      exists p :: p in r.rows + r.created && p.id == r.ids[|st.ids|] && p.name == items[0].name
  {
    var next := RestockStep(st, items[0], userId, companyId);
    RestockStepEffect(st, items[0], userId, companyId);
    RestockTotalIsLastLine(next, items[1..], userId, companyId);
    RestockNeverRaisesSaleQuantity(next, items[1..], userId, companyId);
    var r := RestockRun(next, items[1..], userId, companyId);
    assert r.ids[|st.ids|] == r.ids[..|next.ids|][|st.ids|] == next.ids[|st.ids|];
    match FindByName(st.rows, items[0].name)
    case Some(k) =>
      assert (r.rows + r.created)[k] == r.rows[k];
    case None =>
      var c := |st.created|;
      assert r.created[c] == r.created[..|next.created|][c] == next.created[c];
      assert (r.rows + r.created)[|r.rows| + c] == r.created[c];
  }

  /** Restock returns one product per line, in order: the i-th returned id is that of a
      product in the table afterwards, existing or new, that carries line i's name. */
  lemma {:induction false} RestockReturnsLineProducts(st: Restock, items: seq<NewProduct>, userId: Id, companyId: Option<Id>)
    ensures var r := RestockRun(st, items, userId, companyId);
      |r.ids| == |st.ids| + |items| &&
      forall i :: 0 <= i < |items| ==>
        exists p :: p in r.rows + r.created && p.id == r.ids[|st.ids| + i] && p.name == items[i].name
    decreases |items|
  {
    RestockTotalIsLastLine(st, items, userId, companyId);
    if items != [] {
      var next := RestockStep(st, items[0], userId, companyId);
      RestockReturnsLineProducts(next, items[1..], userId, companyId);
      FirstLineProductKept(st, items, userId, companyId);
      var r := RestockRun(st, items, userId, companyId);
      assert |next.ids| == |st.ids| + 1;
      forall i | 1 <= i < |items|
        ensures exists p :: p in r.rows + r.created && p.id == r.ids[|st.ids| + i] && p.name == items[i].name
      {
        assert items[i] == items[1..][i - 1];
        assert |next.ids| + (i - 1) == |st.ids| + i;
      }
    }
  }

  /** A restock puts nothing on sale: existing rows keep their sale quantity and new rows
      start at 0. */
  lemma RestockKeepsNothingOnSale(st: Restock, items: seq<NewProduct>, userId: Id, companyId: Option<Id>)
    requires NothingOnSale(st.rows) && NothingOnSale(st.created)
    ensures var r := RestockRun(st, items, userId, companyId);
      NothingOnSale(r.rows + r.created)
  {
    RestockNeverRaisesSaleQuantity(st, items, userId, companyId);
    var r := RestockRun(st, items, userId, companyId);
    forall j | 0 <= j < |r.created|
      ensures r.created[j].saleQuantity == 0.0
    {
      if j < |st.created| {
        assert r.created[j] == r.created[..|st.created|][j];
      }
    }
  }

  /** Because quantity is overwritten while sale quantity is kept, restocking less than is
      on sale breaks 0 <= sale_quantity <= quantity. */
  lemma RestockCanBreakStockBound()
    ensures var p := Product(1, "flour", 2.0, 3.0, 10.0, 10.0, Kilogram, 0, Some(7), Some(5));
      var item := NewProduct("flour", 2.0, 3.0, 4.0, Kilogram, 1);
      var r := RestockRun(Restock([p], [], [], 0.0, 2), [item], 7, Some(5));
      StockBounded([p]) && !StockBounded(r.rows)
  {
    var p := Product(1, "flour", 2.0, 3.0, 10.0, 10.0, Kilogram, 0, Some(7), Some(5));
    var item := NewProduct("flour", 2.0, 3.0, 4.0, Kilogram, 1);
    assert FindByName([p], "flour") == Some(0);
    var st := Restock([p], [], [], 0.0, 2);
    var after := RestockStep(st, item, 7, Some(5));
    assert after.rows == [Overwrite(p, item)];
    assert RestockRun(st, [item], 7, Some(5)) == RestockRun(after, [], 7, Some(5)) == after;
    assert after.rows[0].saleQuantity == 10.0 && after.rows[0].quantity == 4.0;
  }

  /** The permission check `create_products` makes, as written: the call passes a keyword
      `user` that `check_user_permission` does not declare, which raises TypeError
      whoever the caller is. */
  function RestockPermissionAsWritten(users: map<Id, User>, user: User): (r: Result<User>)
    ensures r.Err? && r.error == UnexpectedKeyword && Status(r.error).None?
  {
    Err(UnexpectedKeyword)
  }

  /** The permission check `create_products` evidently means: the caller's id, with
      role DIRECTOR or ADMIN. */
  function RestockPermission(users: map<Id, User>, user: User): (r: Result<User>)
    ensures r.Ok? <==> user.id in users && users[user.id].companyId.Some? && users[user.id].role in {Director, Admin}
    ensures r.Ok? ==> r.value == users[user.id]
  {
    CheckUserPermission(users, user.id, RestockRoles)
  }

  /** The code as written refuses every caller, even a DIRECTOR the invoice flow has just
      admitted with the same roles; the corrected check admits exactly that caller. */
  lemma RestockPermissionDiscrepancy(users: map<Id, User>, userId: Id)
    requires CheckUserPermission(users, userId, RestockRoles).Ok?
    ensures RestockPermissionAsWritten(users, users[userId]).Err?
    ensures users[userId].id == userId ==> RestockPermission(users, users[userId]) == Ok(users[userId])
  {
  }

  /** `create_products` with the corrected permission check. Existing rows matched by name
      are overwritten in place; the new rows are appended to the table at the end, and
      each takes the next id. */
  method CreateProducts(s: Session, data: seq<NewProduct>, user: User) returns (r: Result<Restock>)
    requires s.Valid()
    modifies s
    ensures s.Valid()
    ensures RestockPermission(old(s.db.users), user).Err? ==>
      r == Err(RestockPermission(old(s.db.users), user).error) && s.db == old(s.db) && s.nextId == old(s.nextId)
    ensures s.nextId >= old(s.nextId)
    ensures RestockPermission(old(s.db.users), user).Ok? ==>
      var run := RestockRun(Restock(old(s.db.products), [], [], 0.0, old(s.nextId)), data, user.id,
                            old(s.db.users[user.id].companyId));
      && r == Ok(run)
      && s.db == old(s.db).(products := run.rows + run.created)
      && s.nextId == run.next
    ensures NothingOnSale(old(s.db.products)) ==> NothingOnSale(s.db.products)
  {
    var perm := RestockPermission(s.db.users, user);
    if perm.Err? {
      return Err(perm.error);
    }
    var checked := perm.value;
    ghost var start := Restock(s.db.products, [], [], 0.0, s.nextId);
    var created: seq<Product> := [];
    var ids: seq<Id> := [];
    var toPay := 0.0;
    var i := 0;
    while i < |data|
      invariant 0 <= i <= |data|
      invariant s.Valid() && s.db == old(s.db).(products := s.db.products) && s.nextId >= old(s.nextId)
      invariant forall j :: 0 <= j < |created| ==> created[j].id < s.nextId
      invariant UniqueIds(s.db.products + created)
      invariant RestockRun(start, data, user.id, checked.companyId)
             == RestockRun(Restock(s.db.products, created, ids, toPay, s.nextId), data[i..], user.id, checked.companyId)
    {
      assert data[i..][0] == data[i] && data[i..][1..] == data[i + 1..];
      created, ids, toPay := RestockLine(s, data[i], user.id, checked.companyId, created, ids, toPay);
      i := i + 1;
    }
    if NothingOnSale(start.rows) {
      RestockKeepsNothingOnSale(start, data, user.id, checked.companyId);
    }
    var rows := s.db.products;
    s.db := s.db.(products := rows + created);
    r := Ok(Restock(rows, created, ids, toPay, s.nextId));
  }

  /** One pass of the loop of `create_products`, on the session: overwrite the row found by
      name in place, or build a new product with the next id. */
  method RestockLine(s: Session, item: NewProduct, userId: Id, companyId: Option<Id>,
                     created: seq<Product>, ids: seq<Id>, toPay: real)
    returns (newCreated: seq<Product>, newIds: seq<Id>, newToPay: real)
    requires s.Valid() && forall j :: 0 <= j < |created| ==> created[j].id < s.nextId
    requires UniqueIds(s.db.products + created)
    modifies s
    ensures s.Valid() && s.db == old(s.db).(products := s.db.products) && s.nextId >= old(s.nextId)
    ensures forall j :: 0 <= j < |newCreated| ==> newCreated[j].id < s.nextId
    ensures UniqueIds(s.db.products + newCreated)
    ensures Restock(s.db.products, newCreated, newIds, newToPay, s.nextId)
         == RestockStep(Restock(old(s.db.products), created, ids, toPay, old(s.nextId)), item, userId, companyId)
  {
    var found := FindByName(s.db.products, item.name);
    var product: Product;
    newCreated := created;
    if found.Some? {
      var k := found.value;
      product := s.db.products[k];
      product := product.(name := item.name, purchasePrice := item.purchasePrice, salePrice := item.salePrice);
      product := product.(quantity := item.quantity, unitOfMeasure := item.unitOfMeasure, date := item.date);
      assert (s.db.products + created)[k := product] == s.db.products[k := product] + created;
      UpdateKeepsUniqueIds(s.db.products + created, k, product);
      s.db := s.db.(products := s.db.products[k := product]);
    } else {
      var id := s.NewId();
      product := Product(id, item.name, item.purchasePrice, item.salePrice, item.quantity, 0.0,
                         item.unitOfMeasure, item.date, Some(userId), companyId);
      assert s.db.products + (created + [product]) == (s.db.products + created) + [product];
      AppendFreshKeepsUniqueIds(s.db.products + created, product);
      newCreated := created + [product];
    }
    newToPay := product.purchasePrice * product.quantity;
    newIds := ids + [product.id];
  }

  // ------------------------------------------------------------ listing

  /** The permission list actually used: the default when none, or an empty one, is given. */
  function Effective(permissions: Option<seq<Role>>): Permissions
  {
    if permissions.None? || permissions.value == [] then Roles(ProductRoles) else Roles(permissions.value)
  }

  /** `a` is `b` with some rows left out, the rest in the same order. */
  ghost predicate OrderedWithin(a: seq<Product>, b: seq<Product>)
    decreases |b|
  {
    if a == [] then true
    else if b == [] then false
    else (a[0] == b[0] && OrderedWithin(a[1..], b[1..])) || OrderedWithin(a, b[1..])
  }

  /** The rows of a company with a positive quantity, in table order. */
  function InStock(rows: seq<Product>, companyId: Id): (r: seq<Product>)
    ensures forall p :: p in r <==> p in rows && p.companyId == Some(companyId) && p.quantity > 0.0
    ensures OrderedWithin(r, rows)
    ensures |r| <= |rows|
    decreases |rows|
  {
    if rows == [] then []
    else if rows[0].companyId == Some(companyId) && rows[0].quantity > 0.0 then [rows[0]] + InStock(rows[1..], companyId)
    else InStock(rows[1..], companyId)
  }

  /** `get_products`: the caller's company's products that have a positive quantity. */
  function GetProducts(users: map<Id, User>, rows: seq<Product>, userId: Id, permissions: Option<seq<Role>>): (r: Result<seq<Product>>)
    ensures r.Ok? <==> CheckUserPermission(users, userId, Effective(permissions)).Ok?
    ensures r.Err? ==> r.error == CheckUserPermission(users, userId, Effective(permissions)).error
    ensures r.Ok? ==> forall p :: p in r.value <==>
      p in rows && p.companyId == users[userId].companyId && p.quantity > 0.0
    ensures r.Ok? ==> OrderedWithin(r.value, rows)
  {
    match CheckUserPermission(users, userId, Effective(permissions))
    case Err(e) => Err(e)
    case Ok(user) => Ok(InStock(rows, user.companyId.value))
  }

  /** `get_product`: the permission check, then a lookup by id. */
  function GetProduct(users: map<Id, User>, rows: seq<Product>, userId: Id, productId: Id, permissions: Option<seq<Role>>): (r: Result<Product>)
    ensures r.Ok? <==> CheckUserPermission(users, userId, Effective(permissions)).Ok? && FindById(rows, productId).Some?
    ensures r.Ok? ==> r.value.id == productId && r.value in rows
    ensures CheckUserPermission(users, userId, Effective(permissions)).Err? ==>
      r == Err(CheckUserPermission(users, userId, Effective(permissions)).error)
    ensures CheckUserPermission(users, userId, Effective(permissions)).Ok? && FindById(rows, productId).None? ==>
      r == Err(RecordNotFound(productId))
  {
    match CheckUserPermission(users, userId, Effective(permissions))
    case Err(e) => Err(e)
    case Ok(_) =>
      match FindById(rows, productId)
      case None => Err(RecordNotFound(productId))
      case Some(k) => Ok(rows[k])
  }

  /** `update_product` and `_update_product`: a DIRECTOR or ADMIN sets the sale price of a
      product; nothing else on it, and no other row, changes. */
  method UpdateProduct(s: Session, userId: Id, productId: Id, salePrice: real) returns (r: Result<Product>)
    requires s.Valid()
    modifies s
    ensures s.Valid() && s.nextId == old(s.nextId)
    ensures var found := GetProduct(old(s.db.users), old(s.db.products), userId, productId, Some([Director, Admin]));
      found.Err? ==> r == found && s.db == old(s.db)
    ensures var found := GetProduct(old(s.db.users), old(s.db.products), userId, productId, Some([Director, Admin]));
      found.Ok? ==>
        var k := FindById(old(s.db.products), productId).value;
        && r == Ok(found.value.(salePrice := salePrice))
        && s.db == old(s.db).(products := old(s.db.products)[k := r.value])
    ensures NothingOnSale(old(s.db.products)) ==> NothingOnSale(s.db.products)
  {
    var found := GetProduct(s.db.users, s.db.products, userId, productId, Some([Director, Admin]));
    if found.Err? {
      return found;
    }
    var k := FindById(s.db.products, productId).value;
    var product := found.value.(salePrice := salePrice);
    s.db := s.db.(products := s.db.products[k := product]);
    r := Ok(product);
  }
}
