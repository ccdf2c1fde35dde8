/**
 * The user view set of app/user/views.py. Listing hides two reserved
 * accounts. `get_object` is always the requesting user, so viewing, updating
 * and deleting act on the caller's own record only. Creation is allowed only
 * to a caller holding the application token. The principal is given; token
 * authentication is not modelled.
 */
module UserViews {
  import opened Wrappers
  import opened Models
  import opened Permissions

  /** The administrator's account, never listed. */
  const AdminEmail: string := "admin@asperal.com"

  /** The registration account (the app token's user), never listed. */
  const RegisterEmail: string := "register@twix.com"

  /** Errors of the user endpoints: a denied check, or a request the serializer rejects. */
  datatype UserViewError = PermissionDenied(message: Option<string>) | ValidationError

  /** `get_queryset`: every user except the two reserved accounts, excluded one after the other. */
  function UserQueryset(users: map<UserId, User>): (r: set<UserId>)
    ensures r <= users.Keys
    ensures forall u :: u in r ==> users[u].email != AdminEmail && users[u].email != RegisterEmail
    ensures forall u :: u in users && users[u].email != AdminEmail && users[u].email != RegisterEmail ==> u in r
  {
    var withoutAdmin := set u | u in users && users[u].email != AdminEmail;
    set u | u in withoutAdmin && users[u].email != RegisterEmail
  }

  /**
   * `list_user`. Without an `email` parameter it lists the whole queryset;
   * with one, only the users whose email the parameter, read as a regular
   * expression, matches. The regular-expression engine is a parameter.
   */
  method ListUser(store: Store, email: Option<string>, matches: (string, string) -> bool) returns (r: set<UserId>)
    ensures r <= UserQueryset(store.users)
    ensures forall u :: u in r ==> store.users[u].email != AdminEmail && store.users[u].email != RegisterEmail
    ensures email.None? ==> r == UserQueryset(store.users)
    ensures email.Some? ==> forall u :: u in r <==> u in UserQueryset(store.users) && matches(email.value, store.users[u].email)
  {
    r := UserQueryset(store.users);
    if email.Some? {
      r := set u | u in r && matches(email.value, store.users[u].email);
    }
  }

  /** `view_user`: the caller's own record. */
  method ViewUser(store: Store, p: UserId) returns (r: User)
    requires p in store.users
    ensures r == store.users[p]
  {
    r := store.users[p];
  }

  /** A partial update of a user: each absent field keeps its value; flags and credential are untouched. */
  function PatchUser(u: User, name: Option<string>, email: Option<string>): (r: User)
    ensures r.name == (if name.Some? then name.value else u.name)
    ensures r.email == (if email.Some? then email.value else u.email)
    ensures r.password == u.password && r.isActive == u.isActive && r.isStaff == u.isStaff
    ensures r.isSuperuser == u.isSuperuser && r.authGroups == u.authGroups
  {
    u.(name := if name.Some? then name.value else u.name,
       email := if email.Some? then email.value else u.email)
  }

  /**
   * `create_user`: denied with 'App Token required!' unless the caller is
   * in the 'App Token' auth group; then the serializer's create, which
   * rejects an empty or already used email and an empty name (neither field
   * may be blank; an absent one is given as "") and otherwise inserts a plain
   * user record (no personal group).
   */
  method CreateUser(store: Store, p: UserId, email: string, name: string) returns (r: Result<UserId, UserViewError>)
    requires store.Valid() && p in store.users
    modifies store
    ensures store.Valid()
    ensures AppTokenGroupName !in old(store.users[p].authGroups) ==> r == Err(PermissionDenied(Some(AppTokenMessage)))
    ensures r.Ok? <==> AppTokenGroupName in old(store.users[p].authGroups) && email != "" && name != "" && !old(EmailTaken(store.users, email))
    ensures AppTokenGroupName in old(store.users[p].authGroups) && r.Err? ==> r == Err(ValidationError)
    ensures r.Err? ==> store.users == old(store.users)
    ensures r.Ok? ==> r.value !in old(store.users) && store.users == old(store.users)[r.value := NewUser(email, name, Blank)]
    ensures store.groups == old(store.groups) && store.boards == old(store.boards) && store.tasks == old(store.tasks)
  {
    AppTokenDecision<UserId>(store.users[p]);
    var decision := CheckPermission(IsAppToken<UserId>(), store.users[p]);
    if decision.Denied? {
      return Err(PermissionDenied(decision.message));
    }
    if email == "" || name == "" || EmailTaken(store.users, email) {
      return Err(ValidationError);
    }
    var created := store.InsertUser(email, name);
    match created
    case Ok(u) => r := Ok(u);
    case Err(_) => assert false; r := Err(ValidationError);
  }

  /** A user other than `p` already has this email (the serializer's unique validator). */
  predicate EmailTakenByOther(users: map<UserId, User>, p: UserId, email: string)
  {
    exists w :: w in users && w != p && users[w].email == email
  }

  /**
   * `update_user`: a partial update of the caller's own record. An empty
   * email, one another user has, or an empty name is rejected and nothing
   * changes. No
   * other record changes either way.
   */
  method UpdateUser(store: Store, p: UserId, name: Option<string>, email: Option<string>) returns (r: Result<User, UserViewError>)
    requires store.Valid() && p in store.users
    modifies store
    ensures store.Valid()
    ensures r.Err? <==> (email.Some? && (email.value == "" || old(EmailTakenByOther(store.users, p, email.value)))) || name == Some("")
    ensures r.Err? ==> r == Err(ValidationError) && store.users == old(store.users)
    ensures r.Ok? ==> r.value == PatchUser(old(store.users[p]), name, email) && store.users == old(store.users)[p := r.value]
    ensures store.groups == old(store.groups) && store.boards == old(store.boards) && store.tasks == old(store.tasks)
  {
    if email.Some? {
      if email.value == "" {
        return Err(ValidationError);
      }
      if EmailTakenByOther(store.users, p, email.value) {
        return Err(ValidationError);
      }
    }
    if name == Some("") {
      return Err(ValidationError);
    }
    var updated := PatchUser(store.users[p], name, email);
    store.SaveUser(p, updated);
    r := Ok(updated);
  }

  /**
   * `destroy_user`: deletes the caller's own record and its group
   * memberships; every other record stays.
   */
  method DestroyUser(store: Store, p: UserId)
    requires store.Valid() && p in store.users
    modifies store
    ensures store.Valid()
    ensures store.users == old(store.users) - {p}
    ensures forall u :: u in store.users ==> store.users[u] == old(store.users[u])
    ensures store.groups == WithoutUser(old(store.groups), p)
    ensures store.boards == old(store.boards) && store.tasks == old(store.tasks)
  {
    store.DeleteUser(p);
  }

  /** The reserved accounts are never listed, whatever the email filter. */
  lemma ReservedNeverListed(users: map<UserId, User>, u: UserId)
    requires u in users && (users[u].email == AdminEmail || users[u].email == RegisterEmail)
    ensures u !in UserQueryset(users)
  {
  }
}
