/**
 * Company membership: founding a company (the founder becomes its
 * DIRECTOR, and a zero balance and budget are provisioned), renaming it,
 * dissolving it, and adding or removing its ADMIN users.
 */
module CompanyService {
  import opened Models
  import opened Utils
  import opened Store
  import opened BalanceService
  import opened BudgetService

  const ManagerRoles := Roles([Director, Admin])

  const DirectorRole := Roles([Director])

  /** The unique constraint on company names: is the name held by a company other than `except`? */
  predicate NameHeld(companies: map<Id, Company>, name: string, except: Option<Id>)
  {
    exists k | k in companies :: companies[k].name == name && Some(k) != except
  }

  /** `create_company`: a user in no company founds one under an unused name, becomes its
      DIRECTOR, and the company gets a zero balance and an all-zero budget dated `now`. */
  method CreateCompany(s: Session, userId: Id, name: string, now: Time) returns (r: Result<Company>)
    requires s.Valid()
    modifies s
    ensures s.Valid() && s.nextId >= old(s.nextId)
    ensures WorkerRolesHaveNoCompany(old(s.db.users)) ==> WorkerRolesHaveNoCompany(s.db.users)
    ensures OnlyCompanyBalances(old(s.db.balances)) ==> OnlyCompanyBalances(s.db.balances)
    ensures CheckUserCompany(old(s.db.users), userId).Err? ==>
      r == Err(CheckUserCompany(old(s.db.users), userId).error) && s.db == old(s.db)
    ensures CheckUserCompany(old(s.db.users), userId).Ok? && NameHeld(old(s.db.companies), name, None) ==>
      r == Err(NameTaken) && s.db == old(s.db)
    ensures r.Ok? <==> CheckUserCompany(old(s.db.users), userId).Ok? && !NameHeld(old(s.db.companies), name, None)
    ensures r.Ok? ==>
      var cid := old(s.nextId);
      && r.value == Company(cid, name)
      && s.db == old(s.db).(companies := old(s.db.companies)[cid := r.value],
                            users := old(s.db.users)[userId := old(s.db.users[userId]).(companyId := Some(cid), role := Director)],
                            balances := old(s.db.balances)[CompanyOwner(cid) := NewBalance(cid + 1, cid, CompanyBalance)],
                            budgets := old(s.db.budgets)[cid := NewBudget(cid + 2, cid, now)])
      && CheckUserPermission(s.db.users, userId, DirectorRole) == Ok(s.db.users[userId])
      && s.db.balances[CompanyOwner(cid)].balance == 0.0
      && s.db.budgets[cid].income == 0.0 && s.db.budgets[cid].expense == 0.0 && s.db.budgets[cid].profit == 0.0
  {
    var user := CheckUserCompany(s.db.users, userId);
    if user.Err? {
      return Err(user.error);
    }
    if NameHeld(s.db.companies, name, None) {
      return Err(NameTaken);
    }
    var cid := s.NewId();
    var company := Company(cid, name);
    s.db := s.db.(companies := s.db.companies[cid := company]);
    s.db := s.db.(users := s.db.users[userId := user.value.(companyId := Some(cid), role := Director)]);
    var balance := CreateBalance(s, cid, CompanyBalance);
    var budget := CreateBudget(s, cid, now);
    r := Ok(company);
  }

  /** `update_company`: the DIRECTOR renames their company. The commit is not guarded, so a
      name held by another company fails there uncaught; a company row that is missing
      fails dereferencing it. */
  method UpdateCompany(s: Session, userId: Id, name: string) returns (r: Result<Company>)
    requires s.Valid()
    modifies s
    ensures s.Valid() && s.nextId == old(s.nextId)
    ensures WorkerRolesHaveNoCompany(old(s.db.users)) ==> WorkerRolesHaveNoCompany(s.db.users)
    ensures r.Err? ==> s.db == old(s.db)
    ensures CheckUserPermission(old(s.db.users), userId, DirectorRole).Err? ==>
      r == Err(CheckUserPermission(old(s.db.users), userId, DirectorRole).error)
    ensures r.Ok? <==>
      && CheckUserPermission(old(s.db.users), userId, DirectorRole).Ok?
      && old(s.db.users[userId].companyId.value) in old(s.db.companies)
      && !NameHeld(old(s.db.companies), name, old(s.db.users[userId].companyId))
    ensures r.Ok? ==>
      var cid := old(s.db.users[userId].companyId.value);
      && r.value == old(s.db.companies[cid]).(name := name)
      && s.db == old(s.db).(companies := old(s.db.companies)[cid := r.value])
  {
    var perm := CheckUserPermission(s.db.users, userId, DirectorRole);
    if perm.Err? {
      return Err(perm.error);
    }
    var cid := perm.value.companyId.value;
    if cid !in s.db.companies {
      return Err(NoneAttribute);
    }
    if NameHeld(s.db.companies, name, Some(cid)) {
      return Err(IntegrityFailure);
    }
    var company := s.db.companies[cid].(name := name);
    s.db := s.db.(companies := s.db.companies[cid := company]);
    r := Ok(company);
  }

  /** The users once every member of company `cid` has left it as a CUSTOMER. */
  function Released(users: map<Id, User>, cid: Id): (r: map<Id, User>)
    ensures r.Keys == users.Keys
    ensures forall k :: k in users && users[k].companyId == Some(cid) ==> r[k] == users[k].(role := Customer, companyId := None)
    ensures forall k :: k in users && users[k].companyId != Some(cid) ==> r[k] == users[k]
  {
    map k | k in users :: if users[k].companyId == Some(cid) then users[k].(role := Customer, companyId := None) else users[k]
  }

  /** After a company is dissolved nobody belongs to it, releasing twice changes nothing
      more, and the membership guards see every former member as free to join a company. */
  lemma ReleasedLeavesNoMember(users: map<Id, User>, cid: Id)
    ensures forall k :: k in Released(users, cid) ==> Released(users, cid)[k].companyId != Some(cid)
    ensures Released(Released(users, cid), cid) == Released(users, cid)
    ensures forall k :: k in users && users[k].companyId == Some(cid) ==> CheckUserCompany(Released(users, cid), k).Ok?
  {
    var once := Released(users, cid);
    assert forall k :: k in once ==> once[k].companyId != Some(cid);
    assert Released(once, cid) == once;
  }

  /** `delete_company`: the DIRECTOR dissolves their company; every member becomes a
      CUSTOMER in no company, one at a time, and the company row goes. */
  method DeleteCompany(s: Session, userId: Id) returns (r: Result<Id>)
    requires s.Valid()
    modifies s
    ensures s.Valid() && s.nextId == old(s.nextId)
    ensures WorkerRolesHaveNoCompany(old(s.db.users)) ==> WorkerRolesHaveNoCompany(s.db.users)
    ensures r.Err? ==> s.db == old(s.db)
    ensures CheckUserPermission(old(s.db.users), userId, DirectorRole).Err? ==>
      r == Err(CheckUserPermission(old(s.db.users), userId, DirectorRole).error)
    ensures r.Ok? <==>
      CheckUserPermission(old(s.db.users), userId, DirectorRole).Ok? && old(s.db.users[userId].companyId.value) in old(s.db.companies)
    ensures r.Ok? ==>
      && r.value == old(s.db.users[userId].companyId.value)
      && s.db == old(s.db).(users := Released(old(s.db.users), r.value), companies := old(s.db.companies) - {r.value})
  {
    var perm := CheckUserPermission(s.db.users, userId, DirectorRole);
    if perm.Err? {
      return Err(perm.error);
    }
    var cid := perm.value.companyId.value;
    if cid !in s.db.companies {
      return Err(NoneAttribute);
    }
    ghost var start := s.db.users;
    var members := set k | k in s.db.users && s.db.users[k].companyId == Some(cid);
    while members != {}
      invariant s.Valid() && s.nextId == old(s.nextId)
      invariant s.db == old(s.db).(users := s.db.users)
      invariant s.db.users.Keys == start.Keys
      invariant forall k :: k in members ==> k in start && start[k].companyId == Some(cid) && s.db.users[k] == start[k]
      invariant forall k :: k in start && k !in members ==> s.db.users[k] == Released(start, cid)[k]
      decreases members
    {
      var k := PickId(members);
      s.db := s.db.(users := s.db.users[k := s.db.users[k].(role := Customer, companyId := None)]);
      members := members - {k};
    }
    assert forall k :: k in start ==> s.db.users[k] == Released(start, cid)[k];
    assert s.db.users == Released(start, cid);
    s.db := s.db.(companies := s.db.companies - {cid});
    r := Ok(cid);
  }

  /** `add_user`: a DIRECTOR or ADMIN brings a user who is in no company into theirs, as ADMIN. */
  method AddUser(s: Session, newUserId: Id, userId: Id) returns (r: Result<User>)
    requires s.Valid()
    modifies s
    ensures s.Valid() && s.nextId == old(s.nextId)
    ensures WorkerRolesHaveNoCompany(old(s.db.users)) ==> WorkerRolesHaveNoCompany(s.db.users)
    ensures r.Err? ==> s.db == old(s.db)
    ensures CheckUserPermission(old(s.db.users), userId, ManagerRoles).Err? ==>
      r == Err(CheckUserPermission(old(s.db.users), userId, ManagerRoles).error)
    ensures CheckUserPermission(old(s.db.users), userId, ManagerRoles).Ok? ==>
      (r.Ok? <==> CheckUserCompany(old(s.db.users), newUserId).Ok?)
    ensures r.Ok? ==>
      && r.value == old(s.db.users[newUserId]).(companyId := old(s.db.users[userId].companyId), role := Admin)
      && s.db == old(s.db).(users := old(s.db.users)[newUserId := r.value])
      && CheckUserPermission(s.db.users, newUserId, ManagerRoles) == Ok(r.value)
  {
    var perm := CheckUserPermission(s.db.users, userId, ManagerRoles);
    if perm.Err? {
      return Err(perm.error);
    }
    var newUser := CheckUserCompany(s.db.users, newUserId);
    if newUser.Err? {
      return Err(newUser.error);
    }
    var joined := newUser.value.(companyId := perm.value.companyId, role := Admin);
    s.db := s.db.(users := s.db.users[newUserId := joined]);
    r := Ok(joined);
  }

  /** `delete_user`: a DIRECTOR or ADMIN removes a user, who becomes a CUSTOMER in no
      company. `deleteAllowed` is the verdict of the deletion check, which is not part of
      this model. */
  method DeleteUser(s: Session, deletedUserId: Id, userId: Id, deleteAllowed: bool) returns (r: Result<User>)
    requires s.Valid()
    modifies s
    ensures s.Valid() && s.nextId == old(s.nextId)
    ensures WorkerRolesHaveNoCompany(old(s.db.users)) ==> WorkerRolesHaveNoCompany(s.db.users)
    ensures r.Err? ==> s.db == old(s.db)
    ensures CheckUserPermission(old(s.db.users), userId, ManagerRoles).Err? ==>
      r == Err(CheckUserPermission(old(s.db.users), userId, ManagerRoles).error)
    ensures CheckUserPermission(old(s.db.users), userId, ManagerRoles).Ok? && deletedUserId !in old(s.db.users) ==>
      r == Err(RecordNotFound(deletedUserId))
    ensures r.Ok? <==>
      CheckUserPermission(old(s.db.users), userId, ManagerRoles).Ok? && deletedUserId in old(s.db.users) && deleteAllowed
    ensures r.Ok? ==>
      && r.value == old(s.db.users[deletedUserId]).(companyId := None, role := Customer)
      && s.db == old(s.db).(users := old(s.db.users)[deletedUserId := r.value])
      && CheckUserCompany(s.db.users, deletedUserId).Ok?
  {
    var perm := CheckUserPermission(s.db.users, userId, ManagerRoles);
    if perm.Err? {
      return Err(perm.error);
    }
    var oldUser := GetInDb(s.db.users, deletedUserId);
    if oldUser.Err? {
      return Err(oldUser.error);
    }
    if !deleteAllowed {
      return Err(DeleteRefused);
    }
    var left := oldUser.value.(companyId := None, role := Customer);
    s.db := s.db.(users := s.db.users[deletedUserId := left]);
    r := Ok(left);
  }
}
