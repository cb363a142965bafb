/**
 * Branches of a company ("workers"): a DIRECTOR founds one and designates
 * its WORKER_DIRECTOR; branch managers add and remove WORKER_ADMIN users;
 * a DIRECTOR dissolves a branch.
 */
module WorkerService {
  import opened Models
  import opened Utils
  import opened Store

  const DirectorRole := Roles([Director])

  const BranchManagerRoles := Roles([WorkerDirector, WorkerAdmin])

  const BranchReaderRoles := Roles([WorkerDirector, WorkerAdmin, Admin, Director])

  /** The unique constraint on branch names. */
  predicate BranchNameHeld(workers: map<Id, Worker>, name: string)
  {
    exists k | k in workers :: workers[k].name == name
  }

  /** `_get_worker`: a WORKER_DIRECTOR gets the branch their `worker_id` points to (None when
      it points nowhere); anyone else names the branch, and a missing or zero id is refused. */
  function GetWorker(workers: map<Id, Worker>, user: User, workerId: Option<Id>): (r: Result<Option<Worker>>)
    ensures user.role == WorkerDirector ==>
      r == Ok(if user.workerId.Some? && user.workerId.value in workers then Some(workers[user.workerId.value]) else None)
    ensures user.role != WorkerDirector && !Truthy(workerId) ==> r == Err(NoBranchGiven) && Status(r.error) == Some(400)
    ensures user.role != WorkerDirector && Truthy(workerId) ==>
      (r.Ok? <==> workerId.value in workers) &&
      (r.Ok? ==> r.value == Some(workers[workerId.value])) &&
      (r.Err? ==> r.error == RecordNotFound(workerId.value))
  {
    if user.role == WorkerDirector then
      Ok(if user.workerId.Some? && user.workerId.value in workers then Some(workers[user.workerId.value]) else None)
    else if Truthy(workerId) then
      match GetInDb(workers, workerId.value)
      case Err(e) => Err(e)
      case Ok(w) => Ok(Some(w))
    else
      Err(NoBranchGiven)
  }

  /** A WORKER_DIRECTOR resolves to the same branch whatever id the request carries, and
      for everyone else the lookup depends on the id alone, never on who asks. */
  lemma BranchLookupDependsOnRole(workers: map<Id, Worker>, user: User, other: User, a: Option<Id>, b: Option<Id>)
    ensures user.role == WorkerDirector ==> GetWorker(workers, user, a) == GetWorker(workers, user, b)
    ensures user.role != WorkerDirector && other.role != WorkerDirector ==> GetWorker(workers, user, a) == GetWorker(workers, other, a)
  {
  }

  /** `get_worker`: a branch or company manager looks a branch up. */
  function GetBranch(users: map<Id, User>, workers: map<Id, Worker>, userId: Id, workerId: Option<Id>): (r: Result<Option<Worker>>)
    ensures CheckUserPermission(users, userId, BranchReaderRoles).Err? ==> r == Err(CheckUserPermission(users, userId, BranchReaderRoles).error)
    ensures CheckUserPermission(users, userId, BranchReaderRoles).Ok? ==> r == GetWorker(workers, users[userId], workerId)
  {
    match CheckUserPermission(users, userId, BranchReaderRoles)
    case Err(e) => Err(e)
    case Ok(user) => GetWorker(workers, user, workerId)
  }

  /** `create_worker`: a DIRECTOR founds a branch of their company under an unused name, and
      the designated user, who must be in no company, becomes its WORKER_DIRECTOR. That user
      keeps no company, so `check_user` goes on rejecting them. */
  method CreateWorker(s: Session, mainUserId: Id, workerUserId: Id, name: string) returns (r: Result<Worker>)
    requires s.Valid()
    modifies s
    ensures s.Valid() && s.nextId >= old(s.nextId)
    ensures WorkerRolesHaveNoCompany(old(s.db.users)) ==> WorkerRolesHaveNoCompany(s.db.users)
    ensures r.Err? ==> s.db == old(s.db)
    ensures CheckUserPermission(old(s.db.users), mainUserId, DirectorRole).Err? ==>
      r == Err(CheckUserPermission(old(s.db.users), mainUserId, DirectorRole).error)
    ensures CheckUserPermission(old(s.db.users), mainUserId, DirectorRole).Ok? && CheckUserCompany(old(s.db.users), workerUserId).Err? ==>
      r == Err(CheckUserCompany(old(s.db.users), workerUserId).error)
    ensures r.Ok? <==>
      && CheckUserPermission(old(s.db.users), mainUserId, DirectorRole).Ok?
      && CheckUserCompany(old(s.db.users), workerUserId).Ok?
      && !BranchNameHeld(old(s.db.workers), name)
    ensures r.Ok? ==>
      var wid := old(s.nextId);
      && r.value == Worker(wid, name, old(s.db.users[mainUserId].companyId))
      && r.value.companyId.Some?
      && s.db == old(s.db).(workers := old(s.db.workers)[wid := r.value],
                            users := old(s.db.users)[workerUserId := old(s.db.users[workerUserId]).(workerId := Some(wid), role := WorkerDirector)])
      && GetWorker(s.db.workers, s.db.users[workerUserId], None) == Ok(Some(r.value))
      && CheckUser(s.db.users, workerUserId) == Err(NotInCompany)
  {
    var main := CheckUserPermission(s.db.users, mainUserId, DirectorRole);
    if main.Err? {
      return Err(main.error);
    }
    var workerUser := CheckUserCompany(s.db.users, workerUserId);
    if workerUser.Err? {
      return Err(workerUser.error);
    }
    if BranchNameHeld(s.db.workers, name) {
      return Err(NameTaken);
    }
    var wid := s.NewId();
    var worker := Worker(wid, name, main.value.companyId);
    s.db := s.db.(workers := s.db.workers[wid := worker]);
    s.db := s.db.(users := s.db.users[workerUserId := workerUser.value.(workerId := Some(wid), role := WorkerDirector)]);
    r := Ok(worker);
  }

  /** The users once every member of branch `wid` has become a CUSTOMER. */
  function Dismissed(users: map<Id, User>, wid: Id): (r: map<Id, User>)
    ensures r.Keys == users.Keys
    ensures forall k :: k in users && users[k].workerId == Some(wid) ==> r[k] == users[k].(role := Customer)
    ensures forall k :: k in users && users[k].workerId != Some(wid) ==> r[k] == users[k]
  {
    map k | k in users :: if users[k].workerId == Some(wid) then users[k].(role := Customer) else users[k]
  }

  /** After a branch is dissolved none of its members holds a role above CUSTOMER, nobody
      changes company, and dismissing twice changes nothing more. */
  lemma DismissedHoldNoRole(users: map<Id, User>, wid: Id)
    ensures forall k :: k in users && users[k].workerId == Some(wid) ==> Dismissed(users, wid)[k].role == Customer
    ensures forall k :: k in users ==> Dismissed(users, wid)[k].companyId == users[k].companyId
    ensures Dismissed(Dismissed(users, wid), wid) == Dismissed(users, wid)
    ensures WorkerRolesHaveNoCompany(users) ==> WorkerRolesHaveNoCompany(Dismissed(users, wid))
  {
    var once := Dismissed(users, wid);
    assert forall k :: k in once ==> Dismissed(once, wid)[k] == once[k];
  }

  /** `delete_worker`: a DIRECTOR names a branch; each of its users becomes a CUSTOMER, one
      at a time, and the branch row goes. The branch need not belong to the director's
      company. */
  method DeleteWorker(s: Session, userId: Id, workerId: Option<Id>) returns (r: Result<Id>)
    requires s.Valid()
    modifies s
    ensures s.Valid() && s.nextId == old(s.nextId)
    ensures WorkerRolesHaveNoCompany(old(s.db.users)) ==> WorkerRolesHaveNoCompany(s.db.users)
    ensures r.Err? ==> s.db == old(s.db)
    ensures CheckUserPermission(old(s.db.users), userId, DirectorRole).Err? ==>
      r == Err(CheckUserPermission(old(s.db.users), userId, DirectorRole).error)
    ensures CheckUserPermission(old(s.db.users), userId, DirectorRole).Ok? ==>
      && (!Truthy(workerId) ==> r == Err(NoBranchGiven))
      && (r.Ok? <==> Truthy(workerId) && workerId.value in old(s.db.workers))
    ensures r.Ok? ==>
      && r.value == workerId.value
      && s.db == old(s.db).(users := Dismissed(old(s.db.users), r.value), workers := old(s.db.workers) - {r.value})
  {
    var perm := CheckUserPermission(s.db.users, userId, DirectorRole);
    if perm.Err? {
      return Err(perm.error);
    }
    var found := GetWorker(s.db.workers, perm.value, workerId);
    if found.Err? {
      return Err(found.error);
    }
    var wid := workerId.value;
    ghost var start := s.db.users;
    var members := set k | k in s.db.users && s.db.users[k].workerId == Some(wid);
    while members != {}
      invariant s.Valid() && s.nextId == old(s.nextId)
      invariant s.db == old(s.db).(users := s.db.users)
      invariant s.db.users.Keys == start.Keys
      invariant forall k :: k in members ==> k in start && start[k].workerId == Some(wid) && s.db.users[k] == start[k]
      invariant forall k :: k in start && k !in members ==> s.db.users[k] == Dismissed(start, wid)[k]
      decreases members
    {
      var k := PickId(members);
      s.db := s.db.(users := s.db.users[k := s.db.users[k].(role := Customer)]);
      members := members - {k};
    }
    assert forall k :: k in start ==> s.db.users[k] == Dismissed(start, wid)[k];
    assert s.db.users == Dismissed(start, wid);
    DismissedHoldNoRole(start, wid);
    s.db := s.db.(workers := s.db.workers - {wid});
    r := Ok(wid);
  }

  /** `add_user`: a branch manager brings a user who is in no company into their branch, as
      WORKER_ADMIN. */
  method AddUser(s: Session, newUserId: Id, userId: Id) returns (r: Result<User>)
    requires s.Valid()
    modifies s
    ensures s.Valid() && s.nextId == old(s.nextId)
    ensures WorkerRolesHaveNoCompany(old(s.db.users)) ==> WorkerRolesHaveNoCompany(s.db.users)
    ensures r.Err? ==> s.db == old(s.db)
    ensures CheckUserPermission(old(s.db.users), userId, BranchManagerRoles).Err? ==>
      r == Err(CheckUserPermission(old(s.db.users), userId, BranchManagerRoles).error)
    ensures CheckUserPermission(old(s.db.users), userId, BranchManagerRoles).Ok? ==>
      (r.Ok? <==> CheckUserCompany(old(s.db.users), newUserId).Ok?)
    ensures r.Ok? ==>
      && r.value == old(s.db.users[newUserId]).(workerId := old(s.db.users[userId].workerId), role := WorkerAdmin)
      && s.db == old(s.db).(users := old(s.db.users)[newUserId := r.value])
  {
    var perm := CheckUserPermission(s.db.users, userId, BranchManagerRoles);
    if perm.Err? {
      return Err(perm.error);
    }
    var newUser := CheckUserCompany(s.db.users, newUserId);
    if newUser.Err? {
      return Err(newUser.error);
    }
    var joined := newUser.value.(workerId := perm.value.workerId, role := WorkerAdmin);
    s.db := s.db.(users := s.db.users[newUserId := joined]);
    r := Ok(joined);
  }

  /** `delete_user`: a branch manager removes a company member from the branch, who becomes a
      CUSTOMER with no branch. `deleteAllowed` is the verdict of the deletion check, which is
      not part of this model. */
  method DeleteUser(s: Session, oldUserId: Id, userId: Id, deleteAllowed: bool) returns (r: Result<User>)
    requires s.Valid()
    modifies s
    ensures s.Valid() && s.nextId == old(s.nextId)
    ensures WorkerRolesHaveNoCompany(old(s.db.users)) ==> WorkerRolesHaveNoCompany(s.db.users)
    ensures r.Err? ==> s.db == old(s.db)
    ensures CheckUserPermission(old(s.db.users), userId, BranchManagerRoles).Err? ==>
      r == Err(CheckUserPermission(old(s.db.users), userId, BranchManagerRoles).error)
    ensures CheckUserPermission(old(s.db.users), userId, BranchManagerRoles).Ok? && CheckUser(old(s.db.users), oldUserId).Err? ==>
      r == Err(CheckUser(old(s.db.users), oldUserId).error)
    ensures r.Ok? <==>
      CheckUserPermission(old(s.db.users), userId, BranchManagerRoles).Ok? && CheckUser(old(s.db.users), oldUserId).Ok? && deleteAllowed
    ensures r.Ok? ==>
      && r.value == old(s.db.users[oldUserId]).(workerId := None, role := Customer)
      && s.db == old(s.db).(users := old(s.db.users)[oldUserId := r.value])
  {
    var perm := CheckUserPermission(s.db.users, userId, BranchManagerRoles);
    if perm.Err? {
      return Err(perm.error);
    }
    var oldUser := CheckUserPermission(s.db.users, oldUserId, AllRoles);
    if oldUser.Err? {
      return Err(oldUser.error);
    }
    if !deleteAllowed {
      return Err(DeleteRefused);
    }
    var left := oldUser.value.(workerId := None, role := Customer);
    s.db := s.db.(users := s.db.users[oldUserId := left]);
    r := Ok(left);
  }
}
