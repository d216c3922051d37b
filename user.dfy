/**
 * Users, roles and what each role may do (Components/Models/User.cs).
 */
module Users {
  import opened Common

  const Admin: string := "Admin"
  const Developer: string := "Developer"
  const Supervisor: string := "Supervisor"
  const Operator: string := "Operator"

  /** `UserRoles.GetAllRoles`. */
  function GetAllRoles(): (r: seq<string>)
    ensures |r| == 4 && forall i, j :: 0 <= i < j < |r| ==> r[i] != r[j]
    ensures forall role :: role in r <==> role == Admin || role == Developer || role == Supervisor || role == Operator
  {
    [Admin, Developer, Supervisor, Operator]
  }

  /** Times are ticks. */
  datatype User = User(
    userId: string,
    username: string,
    password: string,
    fullName: string,
    role: string,
    isActive: bool,
    createdDate: int,
    lastModifiedDate: int,
    lastModifiedBy: string,
    lastLoginDate: Option<int>)

  datatype LoginAttempt = LoginAttempt(username: string, ipAddress: string, timestamp: int, reason: string)

  datatype UserPermissions = UserPermissions(
    canViewRecipes: bool,
    canEditRecipes: bool,
    canPerformWeighing: bool,
    canApproveAborts: bool,
    canManageUsers: bool,
    canManageBowls: bool,
    canViewBatchHistory: bool,
    canCreateBatches: bool,
    canManageIngredients: bool)

  const AllPermissions: UserPermissions := UserPermissions(true, true, true, true, true, true, true, true, true)
  const NoPermissions: UserPermissions := UserPermissions(false, false, false, false, false, false, false, false, false)

  /** `UserPermissions.GetPermissionsForRole`: an exact, case-sensitive match on the role string. */
  function PermissionsForRole(role: string): UserPermissions {
    if role == Admin then AllPermissions
    else if role == Developer then AllPermissions
    else if role == Supervisor then
      UserPermissions(canViewRecipes := false, canEditRecipes := false, canPerformWeighing := true,
        canApproveAborts := true, canManageUsers := false, canManageBowls := true, canViewBatchHistory := true,
        canCreateBatches := true, canManageIngredients := false)
    else if role == Operator then
      UserPermissions(canViewRecipes := false, canEditRecipes := false, canPerformWeighing := true,
        canApproveAborts := false, canManageUsers := false, canManageBowls := true, canViewBatchHistory := true,
        canCreateBatches := false, canManageIngredients := false)
    else NoPermissions
  }

  /** `a` grants at most what `b` grants. */
  predicate AtMost(a: UserPermissions, b: UserPermissions) {
    (a.canViewRecipes ==> b.canViewRecipes) && (a.canEditRecipes ==> b.canEditRecipes)
    && (a.canPerformWeighing ==> b.canPerformWeighing) && (a.canApproveAborts ==> b.canApproveAborts)
    && (a.canManageUsers ==> b.canManageUsers) && (a.canManageBowls ==> b.canManageBowls)
    && (a.canViewBatchHistory ==> b.canViewBatchHistory) && (a.canCreateBatches ==> b.canCreateBatches)
    && (a.canManageIngredients ==> b.canManageIngredients)
  }

  /**
   * The table: Admin and Developer may do everything; every listed role may
   * weigh, manage bowls and view batch history; a string that is not one of
   * the four roles may do nothing; and the roles are ordered Operator below
   * Supervisor below Admin.
   */
  lemma PermissionsForRoleSpec(role: string)
    ensures role == Admin || role == Developer ==> PermissionsForRole(role) == AllPermissions
    ensures role !in GetAllRoles() ==> PermissionsForRole(role) == NoPermissions
    ensures PermissionsForRole(role).canPerformWeighing <==> role in GetAllRoles()
    ensures role in GetAllRoles() ==>
      PermissionsForRole(role).canManageBowls && PermissionsForRole(role).canViewBatchHistory
    ensures AtMost(PermissionsForRole(role), AllPermissions) && AtMost(NoPermissions, PermissionsForRole(role))
  {
  }

  /** Operator may not approve aborts or create batches; Supervisor may approve aborts but not manage users or edit recipes. */
  lemma RoleLimits()
    ensures !PermissionsForRole(Operator).canApproveAborts && !PermissionsForRole(Operator).canCreateBatches
    ensures PermissionsForRole(Supervisor).canApproveAborts
    ensures !PermissionsForRole(Supervisor).canManageUsers && !PermissionsForRole(Supervisor).canEditRecipes
    ensures AtMost(PermissionsForRole(Operator), PermissionsForRole(Supervisor))
    ensures AtMost(PermissionsForRole(Supervisor), PermissionsForRole(Admin))
    ensures !AtMost(PermissionsForRole(Supervisor), PermissionsForRole(Operator))
  {
  }

  /** Role matching is exact: a differently cased role name gets nothing. */
  lemma RoleMatchIsExact()
    ensures PermissionsForRole("admin") == NoPermissions
  {
  }
}
