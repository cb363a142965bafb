/**
 * The guards every service calls before it changes anything: record lookup,
 * company membership, role permission, and the classification of the
 * errors a commit can raise.
 */
module Utils {
  import opened Models

  /** The permission argument: a list of roles, or the string '__all__'. */
  datatype Permissions = AllRoles | Roles(allowed: seq<Role>)

  /** `get_in_db`: the record with the given key, or a 400 naming the key. */
  function GetInDb<T>(table: map<Id, T>, ident: Id): (r: Result<T>)
    ensures r.Ok? <==> ident in table
    ensures r.Ok? ==> r.value == table[ident]
    ensures r.Err? ==> r.error == RecordNotFound(ident) && Status(r.error) == Some(400)
  {
    if ident in table then Ok(table[ident]) else Err(RecordNotFound(ident))
  }

  /** `check_user`: the user must exist and belong to a company. */
  function CheckUser(users: map<Id, User>, userId: Id): (r: Result<User>)
    ensures r.Ok? <==> userId in users && users[userId].companyId.Some?
    ensures r.Ok? ==> r.value == users[userId]
    ensures userId !in users ==> r == Err(RecordNotFound(userId))
    ensures userId in users && users[userId].companyId.None? ==> r == Err(NotInCompany)
  {
    match GetInDb(users, userId)
    case Err(e) => Err(e)
    case Ok(user) => if user.companyId.None? then Err(NotInCompany) else Ok(user)
  }

  /** `check_user_permission`: company membership first, even for '__all__'; then the role. */
  function CheckUserPermission(users: map<Id, User>, userId: Id, permissions: Permissions): (r: Result<User>)
    ensures r.Ok? <==>
      && userId in users && users[userId].companyId.Some?
      && (permissions.Roles? ==> users[userId].role in permissions.allowed)
    ensures r.Ok? ==> r.value == users[userId]
    ensures CheckUser(users, userId).Err? ==> r == CheckUser(users, userId)
    ensures CheckUser(users, userId).Ok? && r.Err? ==> r.error == Forbidden && Status(r.error) == Some(403)
  {
    match CheckUser(users, userId)
    case Err(e) => Err(e)
    case Ok(user) =>
      if permissions.AllRoles? then Ok(user)
      else if user.role !in permissions.allowed then Err(Forbidden)
      else Ok(user)
  }

  /** `check_user_company`: the user must exist and belong to no company yet. */
  function CheckUserCompany(users: map<Id, User>, userId: Id): (r: Result<User>)
    ensures r.Ok? <==> userId in users && users[userId].companyId.None?
    ensures r.Ok? ==> r.value == users[userId]
    ensures userId !in users ==> r == Err(RecordNotFound(userId))
    ensures userId in users && users[userId].companyId.Some? ==> r == Err(AlreadyInCompany)
  {
    match GetInDb(users, userId)
    case Err(e) => Err(e)
    case Ok(user) => if user.companyId.Some? then Err(AlreadyInCompany) else Ok(user)
  }

  /** For an existing user exactly one of the two membership guards passes. */
  lemma MembershipGuardsAreComplementary(users: map<Id, User>, userId: Id)
    requires userId in users
    ensures CheckUser(users, userId).Ok? != CheckUserCompany(users, userId).Ok?
  {
  }

  /** Granting more roles never rejects a caller that fewer roles accepted,
      and '__all__' accepts exactly the company members. */
  lemma PermissionIsMonotone(users: map<Id, User>, userId: Id, fewer: seq<Role>, more: seq<Role>)
    requires forall role :: role in fewer ==> role in more
    ensures CheckUserPermission(users, userId, Roles(fewer)).Ok? ==> CheckUserPermission(users, userId, Roles(more)) == CheckUserPermission(users, userId, Roles(fewer))
    ensures CheckUserPermission(users, userId, AllRoles) == CheckUser(users, userId)
  {
  }

  /** The condition a failed commit reports (`err.orig`). Only DataError and
      IntegrityError are caught; their other kinds are grouped as one. */
  datatype DbFailure = UniqueViolation | ForeignKeyViolation | NumericValueOutOfRange | OtherDataOrIntegrity

  /** What `check_unique` does about a commit: the HTTP error it raises, if any,
      and whether it rolled the session back first. */
  datatype CommitCheck = CommitCheck(raised: Option<Error>, rolledBack: bool)

  /** `check_unique` after `session.commit()`. */
  function CheckUnique(failure: Option<DbFailure>): (r: CommitCheck)
    ensures r.rolledBack <==> failure == Some(UniqueViolation)
    ensures r.raised.None? <==> failure.None? || failure == Some(OtherDataOrIntegrity)
    ensures failure == Some(UniqueViolation) ==> r.raised == Some(NameTaken) && Status(NameTaken) == Some(400)
    ensures failure == Some(ForeignKeyViolation) ==> r.raised == Some(UserRemoved) && Status(UserRemoved) == Some(401)
    ensures failure == Some(NumericValueOutOfRange) ==> r.raised == Some(NumberOutOfRange) && Status(NumberOutOfRange) == Some(400)
  {
    match failure
    case None => CommitCheck(None, false)
    case Some(UniqueViolation) => CommitCheck(Some(NameTaken), true)
    case Some(ForeignKeyViolation) => CommitCheck(Some(UserRemoved), false)
    case Some(NumericValueOutOfRange) => CommitCheck(Some(NumberOutOfRange), false)
    case Some(OtherDataOrIntegrity) => CommitCheck(None, false)
  }

  /** Branch roles. */
  predicate IsWorkerRole(role: Role)
  {
    role == WorkerDirector || role == WorkerAdmin || role == WorkerUser
  }

  /** No user holding a branch role belongs to a company. The membership transitions keep
      this, because they only hand out branch roles to users `check_user_company` let through. */
  ghost predicate WorkerRolesHaveNoCompany(users: map<Id, User>)
  {
    forall k :: k in users && IsWorkerRole(users[k].role) ==> users[k].companyId.None?
  }

  /** While branch roles carry no company, a guard that admits only branch roles admits nobody:
      `check_user` rejects every branch user before the role is looked at. */
  lemma WorkerRolesLockedOut(users: map<Id, User>, userId: Id, roles: seq<Role>)
    requires WorkerRolesHaveNoCompany(users)
    requires forall i :: 0 <= i < |roles| ==> IsWorkerRole(roles[i])
    ensures CheckUserPermission(users, userId, Roles(roles)).Err?
    ensures userId in users && IsWorkerRole(users[userId].role) ==> CheckUser(users, userId) == Err(NotInCompany)
  {
  }
}
