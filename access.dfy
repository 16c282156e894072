/**
 * Which callers the views of charities/views.py admit. The permission classes themselves
 * live in accounts/permissions.py, which is not part of this model: a caller is described by
 * the set of roles those classes grant it.
 */
module Access {
  /** What a permission class can recognise in a caller. */
  datatype Role = Authenticated | Benefactor | CharityOwner

  /** The permission classes the views name. */
  datatype Permission = IsAuthenticated | IsBenefactor | IsCharityOwner

  predicate Grants(p: Permission, roles: set<Role>)
  {
    match p
    case IsAuthenticated => Authenticated in roles
    case IsBenefactor => Benefactor in roles
    case IsCharityOwner => CharityOwner in roles
  }

  /** The framework admits a caller only if every listed permission grants it. */
  predicate Allows(permissions: seq<Permission>, roles: set<Role>)
  {
    forall i :: 0 <= i < |permissions| ==> Grants(permissions[i], roles)
  }

  /** The framework's read-only HTTP methods. */
  const SafeMethods: set<string> := {"GET", "HEAD", "OPTIONS"}

  /** Tasks.get_permissions: listing needs a logged-in caller, anything else a charity owner. */
  function TasksPermissions(httpMethod: string): (permissions: seq<Permission>)
    ensures httpMethod in SafeMethods ==> permissions == [IsAuthenticated]
    ensures httpMethod !in SafeMethods ==> permissions == [IsCharityOwner]
  {
    if httpMethod in SafeMethods then [IsAuthenticated] else [IsCharityOwner]
  }

  /** Any logged-in caller may list tasks; only a charity owner may create one (or use any other method). */
  lemma TasksAdmits(httpMethod: string, roles: set<Role>)
    ensures httpMethod in SafeMethods ==> (Allows(TasksPermissions(httpMethod), roles) <==> Authenticated in roles)
    ensures httpMethod !in SafeMethods ==> (Allows(TasksPermissions(httpMethod), roles) <==> CharityOwner in roles)
  {
    assert TasksPermissions(httpMethod)[0] == if httpMethod in SafeMethods then IsAuthenticated else IsCharityOwner;
  }

  const TaskRequestPermissions: seq<Permission> := [IsBenefactor]
  const TaskResponsePermissions: seq<Permission> := [IsCharityOwner]
  /**
   * DoneTask declares no permission classes of its own; the framework then applies the
   * project's default classes, which are not part of this model.
   */
  const DoneTaskPermissions: seq<Permission> := []

  /**
   * What the declared lists of the request and response views admit: requesting a task needs
   * the benefactor role, answering a request the charity-owner role, whoever owns the task.
   */
  lemma ViewPermissions(roles: set<Role>)
    ensures Allows(TaskRequestPermissions, roles) <==> Benefactor in roles
    ensures Allows(TaskResponsePermissions, roles) <==> CharityOwner in roles
  {
    assert TaskRequestPermissions[0] == IsBenefactor;
    assert TaskResponsePermissions[0] == IsCharityOwner;
  }
}
