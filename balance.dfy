/**
 * The money ledger: a balance owned by a user or a company, changed one
 * transaction at a time, each change leaving a history entry that holds the
 * state the balance had before it.
 */
module BalanceService {
  import opened Models
  import opened Utils
  import opened Store

  /** One call of `change_balance`: amount, transaction type, date and the optional links. */
  datatype Change = Change(amount: real, kind: TransactionType, date: Time, invoice: Option<Id>, finance: Option<Id>)

  /** The effect of a transaction on the amount: INCOME adds, anything else subtracts. */
  function Signed(amount: real, kind: TransactionType): real
  {
    if kind == Income then amount else -amount
  }

  /** The balance once `change_balance` has run. */
  function Changed(b: Balance, c: Change): Balance
  {
    b.(balance := if c.kind == Income then b.balance + c.amount else b.balance - c.amount,
       date := Some(c.date),
       invoiceId := if c.invoice.Some? then c.invoice else b.invoiceId,
       financeId := if c.finance.Some? then c.finance else b.financeId)
  }

  /** The history entry `change_balance` returns: the balance's state before the change. */
  function Entry(b: Balance, c: Change): BalanceHistory
  {
    BalanceHistory(b.balance, b.date, c.amount, c.kind, b.invoiceId, b.financeId, b.id)
  }

  /** Rebuild the balance as it was before the change from the changed balance and its entry. */
  function Reverted(after: Balance, h: BalanceHistory): Balance
  {
    after.(balance := h.prevBalance, date := h.date, invoiceId := h.invoiceId, financeId := h.financeId)
  }

  /** The balance with the amount, date and links of a change; the
      history entry is enough to undo it, and enough to redo the amount. */
  lemma EntryUndoesChange(b: Balance, c: Change)
    ensures Reverted(Changed(b, c), Entry(b, c)) == b
    ensures Changed(b, c).balance == Entry(b, c).prevBalance + Signed(Entry(b, c).amount, Entry(b, c).transactionType)
    ensures Entry(b, c).balanceId == Changed(b, c).id == b.id
  {
  }

  /** The balance after a sequence of `change_balance` calls, in order. */
  function Replay(b: Balance, cs: seq<Change>): Balance
    decreases |cs|
  {
    if cs == [] then b else Replay(Changed(b, cs[0]), cs[1..])
  }

  /** The history entries that sequence of calls produces, in order. */
  function ReplayHistory(b: Balance, cs: seq<Change>): seq<BalanceHistory>
    decreases |cs|
  {
    if cs == [] then [] else [Entry(b, cs[0])] + ReplayHistory(Changed(b, cs[0]), cs[1..])
  }

  function IncomeTotal(cs: seq<Change>): real
    decreases |cs|
  {
    if cs == [] then 0.0 else (if cs[0].kind == Income then cs[0].amount else 0.0) + IncomeTotal(cs[1..])
  }

  function OtherTotal(cs: seq<Change>): real
    decreases |cs|
  {
    if cs == [] then 0.0 else (if cs[0].kind != Income then cs[0].amount else 0.0) + OtherTotal(cs[1..])
  }

  /** Conservation: the final amount is the initial amount plus the INCOME amounts
      minus all other amounts, with exactly one history entry per call; the balance
      keeps its id and its owner. Nothing stops the amount from going negative. */
  lemma {:induction false} Conservation(b: Balance, cs: seq<Change>)
    ensures Replay(b, cs).balance == b.balance + IncomeTotal(cs) - OtherTotal(cs)
    ensures |ReplayHistory(b, cs)| == |cs|
    ensures Replay(b, cs).id == b.id && Replay(b, cs).userId == b.userId && Replay(b, cs).companyId == b.companyId
    decreases |cs|
  {
    if cs != [] {
      Conservation(Changed(b, cs[0]), cs[1..]);
    }
  }

  /** A history trail explains a balance going from `start` to `final`: each entry's
      previous amount is where the one before it left off, and the last leads to `final`. */
  ghost predicate Explains(start: real, hs: seq<BalanceHistory>, final: real)
    decreases |hs|
  {
    if hs == [] then start == final
    else hs[0].prevBalance == start && Explains(start + Signed(hs[0].amount, hs[0].transactionType), hs[1..], final)
  }

  /** Replaying the history reproduces the current amount, and every entry names the balance. */
  lemma {:induction false} HistoryExplainsBalance(b: Balance, cs: seq<Change>)
    ensures Explains(b.balance, ReplayHistory(b, cs), Replay(b, cs).balance)
    ensures forall i :: 0 <= i < |ReplayHistory(b, cs)| ==> ReplayHistory(b, cs)[i].balanceId == b.id
    decreases |cs|
  {
    if cs != [] {
      var next := Changed(b, cs[0]);
      HistoryExplainsBalance(next, cs[1..]);
      assert ReplayHistory(b, cs) == [Entry(b, cs[0])] + ReplayHistory(next, cs[1..]);
      assert next.balance == b.balance + Signed(cs[0].amount, cs[0].kind);
    }
  }

  /** The key under which a new balance is filed. */
  function OwnerKey(ident: Id, balanceType: BalanceType): Owner
  {
    if balanceType == UserBalance then UserOwner(ident) else CompanyOwner(ident)
  }

  /** The owner a balance row names through its `user_id` and `company_id`. */
  function OwnerOf(b: Balance): Option<Owner>
  {
    if b.userId.Some? && b.companyId.None? then Some(UserOwner(b.userId.value))
    else if b.companyId.Some? && b.userId.None? then Some(CompanyOwner(b.companyId.value))
    else None
  }

  /** `create_balance`'s record: amount 0 and exactly one owner. */
  function NewBalance(id: Id, ident: Id, balanceType: BalanceType): (r: Balance)
    ensures r.id == id && r.balance == 0.0
    ensures OwnerOf(r) == Some(OwnerKey(ident, balanceType))
    ensures r.date.None? && r.invoiceId.None? && r.financeId.None?
  {
    var balance := Balance(id, 0.0, None, None, None, None, None);
    if balanceType == UserBalance then balance.(userId := Some(ident)) else balance.(companyId := Some(ident))
  }

  const CompanyBalanceRoles := Roles([Admin, Director])

  /** `_get_balance_owner`: the user itself, or the company of an ADMIN or DIRECTOR. */
  function GetBalanceOwner(users: map<Id, User>, userId: Id, balanceType: BalanceType): (r: Result<Owner>)
    ensures balanceType == UserBalance ==>
      r == if userId in users then Ok(UserOwner(userId)) else Err(RecordNotFound(userId))
    ensures balanceType == CompanyBalance ==>
      (r.Ok? <==> userId in users && users[userId].companyId.Some? && users[userId].role in {Admin, Director})
    ensures balanceType == CompanyBalance && r.Ok? ==> r.value == CompanyOwner(users[userId].companyId.value)
    ensures balanceType == CompanyBalance && r.Err? ==> r.error == CheckUserPermission(users, userId, CompanyBalanceRoles).error
  {
    if balanceType == UserBalance then
      match GetInDb(users, userId)
      case Err(e) => Err(e)
      case Ok(_) => Ok(UserOwner(userId))
    else
      match CheckUserPermission(users, userId, CompanyBalanceRoles)
      case Err(e) => Err(e)
      case Ok(user) => Ok(CompanyOwner(user.companyId.value))
  }

  /** `get_balance`: the owner's balance; an owner without one is refused. */
  function GetBalance(users: map<Id, User>, balances: map<Owner, Balance>, userId: Id, balanceType: BalanceType): (r: Result<Balance>)
    ensures r.Ok? <==> GetBalanceOwner(users, userId, balanceType).Ok? && GetBalanceOwner(users, userId, balanceType).value in balances
    ensures r.Ok? ==> r.value == balances[GetBalanceOwner(users, userId, balanceType).value]
    ensures GetBalanceOwner(users, userId, balanceType).Ok? && r.Err? ==> r.error == NoBalanceYet
  {
    match GetBalanceOwner(users, userId, balanceType)
    case Err(e) => Err(e)
    case Ok(owner) => if owner !in balances then Err(NoBalanceYet) else Ok(balances[owner])
  }

  /** Every balance belongs to a company; the only call of `create_balance` opens a company's. */
  predicate OnlyCompanyBalances(balances: map<Owner, Balance>)
  {
    forall o :: o in balances ==> o.CompanyOwner?
  }

  /** While only companies have balances, reading a user's balance always fails: a missing
      user is not found, and an existing one has no balance yet. */
  lemma UserBalanceNeverFound(users: map<Id, User>, balances: map<Owner, Balance>, userId: Id)
    requires OnlyCompanyBalances(balances)
    ensures GetBalance(users, balances, userId, UserBalance) ==
      if userId in users then Err(NoBalanceYet) else Err(RecordNotFound(userId))
  {
  }

  /** `create_balance`: files a zero balance for the user or company `ident`. */
  method CreateBalance(s: Session, ident: Id, balanceType: BalanceType) returns (b: Balance)
    requires s.Valid()
    modifies s
    ensures s.Valid() && s.nextId == old(s.nextId) + 1
    ensures b == NewBalance(old(s.nextId), ident, balanceType)
    ensures s.db == old(s.db).(balances := old(s.db.balances)[OwnerKey(ident, balanceType) := b])
    ensures balanceType == CompanyBalance && OnlyCompanyBalances(old(s.db.balances)) ==> OnlyCompanyBalances(s.db.balances)
  {
    var id := s.NewId();
    b := Balance(id, 0.0, None, None, None, None, None);
    if balanceType == UserBalance {
      b := b.(userId := Some(ident));
    } else {
      b := b.(companyId := Some(ident));
    }
    s.db := s.db.(balances := s.db.balances[OwnerKey(ident, balanceType) := b]);
  }

  /** `change_balance`: moves the owner's balance by the amount, sets its date, replaces a
      link only when one is given, and returns the entry holding the state before. It
      never fails and does not keep the amount from going negative. */
  method ChangeBalance(s: Session, amount: real, kind: TransactionType, date: Time, owner: Owner,
                       invoice: Option<Id>, finance: Option<Id>) returns (h: BalanceHistory)
    requires s.Valid() && owner in s.db.balances
    modifies s
    ensures s.Valid() && s.nextId == old(s.nextId)
    ensures s.db == old(s.db).(balances := old(s.db.balances)[owner := Changed(old(s.db.balances[owner]), Change(amount, kind, date, invoice, finance))])
    ensures h == Entry(old(s.db.balances[owner]), Change(amount, kind, date, invoice, finance))
    ensures s.db.balances[owner].balance == old(s.db.balances[owner].balance) + Signed(amount, kind)
    ensures h.prevBalance == old(s.db.balances[owner].balance) && h.date == old(s.db.balances[owner].date)
    ensures s.db.balances.Keys == old(s.db.balances.Keys)
  {
    var balance := s.db.balances[owner];
    h := BalanceHistory(balance.balance, balance.date, amount, kind, balance.invoiceId, balance.financeId, balance.id);
    if kind == Income {
      balance := balance.(balance := balance.balance + amount);
    } else {
      balance := balance.(balance := balance.balance - amount);
    }
    balance := balance.(date := Some(date));
    if invoice.Some? {
      balance := balance.(invoiceId := invoice);
    }
    if finance.Some? {
      balance := balance.(financeId := finance);
    }
    s.db := s.db.(balances := s.db.balances[owner := balance]);
  }
}
