/** The four request extractors that admit a caller by role. Each one
    resolves the bearer credential to a user (the resolver is not part of this
    model: its answer is the `resolved` argument) and then matches the user's
    free-form `group` string against a fixed set of names. The role tiers are
    a closed datatype with a total order; the lemmas show that the four string
    sets are exactly the tier floors and that they nest. */
module Extractors {
  import opened Common
  import opened Store

  datatype Role = Subscriber | Contributor | Editor | Administrator {
    function Tier(): nat {
      match this
      case Subscriber => 0
      case Contributor => 1
      case Editor => 2
      case Administrator => 3
    }

    /** This role satisfies a requirement of `floor`. */
    predicate AtLeast(floor: Role) {
      Tier() >= floor.Tier()
    }
  }

  /** The `group` string stored for each role. */
  function GroupName(r: Role): string {
    match r
    case Subscriber => "subscriber"
    case Contributor => "contributor"
    case Editor => "editor"
    case Administrator => "administrator"
  }

  /** The role a `group` string names, if it names one. */
  function ParseGroup(group: string): (r: Option<Role>)
    ensures r.Some? ==> GroupName(r.value) == group
    ensures r.None? ==> forall role: Role :: GroupName(role) != group
  {
    match group
    case "subscriber" => Some(Subscriber)
    case "contributor" => Some(Contributor)
    case "editor" => Some(Editor)
    case "administrator" => Some(Administrator)
    case _ => None
  }

  lemma ParseGroupName(r: Role)
    ensures ParseGroup(GroupName(r)) == Some(r)
  {
  }

  /** The extractor rejections. `Unresolved` stands for every failure of the
      credential resolver, whose own error kinds are not part of this model. */
  datatype AuthError = PermissionDeny | WrongCredentials | Unresolved(reason: string)

  /** The tier gate every extractor is an instance of: propagate a resolver
      failure, otherwise admit iff the group names a role at or above `floor`. */
  function Require(resolved: Result<User, AuthError>, floor: Role): Result<User, AuthError> {
    match resolved
    case Err(e) => Err(e)
    case Ok(user) =>
      var role := ParseGroup(user.group);
      if role.Some? && role.value.AtLeast(floor) then Ok(user) else Err(AuthError.PermissionDeny)
  }

  /** The caller passed the extractor for `floor`; handlers that sit behind
      one require this of their caller. */
  predicate Admits(user: User, floor: Role) {
    Require(Ok(user), floor).Ok?
  }

  function PMSubscriber(resolved: Result<User, AuthError>): (r: Result<User, AuthError>)
    ensures r == Require(resolved, Subscriber)
  {
    match resolved
    case Err(e) => Err(e)
    case Ok(user) =>
      match user.group
      case "subscriber" | "contributor" | "editor" | "administrator" => Ok(user)
      case _ => Err(AuthError.PermissionDeny)
  }

  function PMContributor(resolved: Result<User, AuthError>): (r: Result<User, AuthError>)
    ensures r == Require(resolved, Contributor)
  {
    match resolved
    case Err(e) => Err(e)
    case Ok(user) =>
      match user.group
      case "contributor" | "editor" | "administrator" => Ok(user)
      case _ => Err(AuthError.PermissionDeny)
  }

  function PMEditor(resolved: Result<User, AuthError>): (r: Result<User, AuthError>)
    ensures r == Require(resolved, Editor)
  {
    match resolved
    case Err(e) => Err(e)
    case Ok(user) =>
      match user.group
      case "editor" | "administrator" => Ok(user)
      case _ => Err(AuthError.PermissionDeny)
  }

  function PMAdministrator(resolved: Result<User, AuthError>): (r: Result<User, AuthError>)
    ensures r == Require(resolved, Administrator)
  {
    match resolved
    case Err(e) => Err(e)
    case Ok(user) =>
      match user.group
      case "administrator" => Ok(user)
      case _ => Err(AuthError.PermissionDeny)
  }

  /** The group names a gate admits: those of the roles at or above its floor. */
  function AdmittedGroups(floor: Role): (names: set<string>)
    ensures forall r: Role :: GroupName(r) in names <==> r.AtLeast(floor)
  {
    match floor
    case Subscriber => {"subscriber", "contributor", "editor", "administrator"}
    case Contributor => {"contributor", "editor", "administrator"}
    case Editor => {"editor", "administrator"}
    case Administrator => {"administrator"}
  }

  /** A gate admits exactly the group strings of its tier floor; any other
      string, whatever it is, is a PermissionDeny. */
  lemma RequireAdmitsExactly(user: User, floor: Role)
    ensures Require(Ok(user), floor) == Ok(user) <==> user.group in AdmittedGroups(floor)
    ensures user.group !in AdmittedGroups(floor) ==> Require(Ok(user), floor) == Err(AuthError.PermissionDeny)
  {
  }

  /** A resolver failure is returned as it is, before any group is looked at;
      on success the admitted user is the resolved one, unchanged. */
  lemma RequirePassesResolverThrough(resolved: Result<User, AuthError>, floor: Role)
    ensures resolved.Err? ==> Require(resolved, floor) == Err(resolved.error)
    ensures Require(resolved, floor).Ok? ==> resolved.Ok? && Require(resolved, floor).value == resolved.value
  {
  }

  /** The gates nest: passing a higher gate means passing every lower one,
      with the same user. */
  lemma GatesNest(resolved: Result<User, AuthError>, low: Role, high: Role)
    requires high.AtLeast(low)
    ensures Require(resolved, high).Ok? ==> Require(resolved, low) == Require(resolved, high)
    ensures AdmittedGroups(high) <= AdmittedGroups(low)
  {
  }

  /** The tier order is a total order on roles. */
  lemma RoleOrderIsTotal(a: Role, b: Role, c: Role)
    ensures a.AtLeast(a)
    ensures a.AtLeast(b) && b.AtLeast(a) ==> a == b
    ensures a.AtLeast(b) && b.AtLeast(c) ==> a.AtLeast(c)
    ensures a.AtLeast(b) || b.AtLeast(a)
  {
  }
}
