/**
 * The explicit permission checks of app/core/permissions.py. A permission
 * class is its optional `message` and its two checks; a check either lets the
 * request through or denies it with that message. Nothing here changes state.
 * The request is represented by its authenticated user.
 */
module Permissions {
  import opened Wrappers
  import opened Models

  /** Name of the Django auth group that marks an application token. */
  const AppTokenGroupName: string := "App Token"

  /** The denial message of `IsAppToken`. */
  const AppTokenMessage: string := "App Token required!"

  /** The outcome of an explicit check: go on, or `permission_denied(message)`. */
  datatype Decision = Granted | Denied(message: Option<string>)

  /**
   * A permission class. `message` is `None` when the class defines none;
   * `O` is the type of the objects `hasObjectPermission` is asked about.
   */
  datatype Permission<-O> = Permission(
    message: Option<string>,
    hasPermission: User -> bool,
    hasObjectPermission: (User, O) -> bool)

  /** `check_permission`: denies, with the class's message, exactly when the class refuses. */
  function CheckPermission<O>(permission: Permission<O>, user: User): (d: Decision)
    ensures d.Granted? <==> permission.hasPermission(user)
    ensures d.Denied? ==> d.message == permission.message
  {
    if !permission.hasPermission(user) then Denied(permission.message) else Granted
  }

  /** `check_object_permission`: the same, asking about one object. */
  function CheckObjectPermission<O>(permission: Permission<O>, user: User, obj: O): (d: Decision)
    ensures d.Granted? <==> permission.hasObjectPermission(user, obj)
    ensures d.Denied? ==> d.message == permission.message
  {
    if !permission.hasObjectPermission(user, obj) then Denied(permission.message) else Granted
  }

  /** `IsAppToken.has_permission`: the user is in an auth group named exactly 'App Token'. */
  predicate InAppTokenGroup(user: User)
  {
    AppTokenGroupName in user.authGroups
  }

  /**
   * `IsAppToken`. It does not override `has_object_permission`, so the
   * base class's answer (always yes) applies to objects.
   */
  function IsAppToken<O(!new)>(): (p: Permission<O>)
    ensures p.message == Some(AppTokenMessage)
    ensures forall u :: p.hasPermission(u) <==> AppTokenGroupName in u.authGroups
    ensures forall u, o :: p.hasObjectPermission(u, o)
  {
    Permission(Some(AppTokenMessage), InAppTokenGroup, (u, o) => true)
  }

  /**
   * Checking `IsAppToken` grants exactly the members of the 'App Token'
   * auth group and denies everyone else with 'App Token required!'.
   * Twix groups play no part: only the user record's auth groups are read.
   */
  lemma AppTokenDecision<O(!new)>(user: User)
    ensures CheckPermission(IsAppToken<O>(), user) ==
      if AppTokenGroupName in user.authGroups then Granted else Denied(Some(AppTokenMessage))
  {
  }

  /** A new user is in no auth group, so it never passes `IsAppToken`. */
  lemma NewUserIsNoAppToken<O(!new)>(email: string, name: string, password: Credential)
    ensures CheckPermission(IsAppToken<O>(), NewUser(email, name, password)) == Denied(Some(AppTokenMessage))
  {
  }
}
